/** Service-hour windowing of the dashboard (src/pages/DashboardPage.jsx):
    `timeToMinutes` on "HH:MM" strings and `isTimeSlotActive`, whose window
    includes its end minute. The wall clock is the parameter `now`. */
module ServiceHours {
  import opened Common
  import opened Text

  /** The service-hours record; a key the server leaves out is "". */
  datatype Hours = Hours(breakfastStart: string, breakfastEnd: string, lunchStart: string, lunchEnd: string)

  /** Used until the first `GET /service-hours/public` answers. */
  const DefaultHours := Hours("08:00", "11:00", "12:00", "15:00")

  /** `now.getHours() * 60 + now.getMinutes()`. */
  type MinuteOfDay = m: int | 0 <= m < 1440

  datatype Slot = BreakfastSlot | LunchSlot

  function StartOf(hours: Hours, slot: Slot): string {
    match slot
    case BreakfastSlot => hours.breakfastStart
    case LunchSlot => hours.lunchStart
  }

  function EndOf(hours: Hours, slot: Slot): string {
    match slot
    case BreakfastSlot => hours.breakfastEnd
    case LunchSlot => hours.lunchEnd
  }

  /** The first element of `s.split(':')`. */
  function FirstField(s: string): string {
    if s == [] || s[0] == ':' then [] else [s[0]] + FirstField(s[1..])
  }

  /** The first field is the longest colon-free prefix. */
  lemma {:induction false} FirstFieldIsPrefix(s: string)
    ensures ':' !in FirstField(s)
    ensures FirstField(s) <= s
    ensures |FirstField(s)| < |s| ==> s[|FirstField(s)|] == ':'
    ensures ':' !in s ==> FirstField(s) == s
  {
    if s != [] && s[0] != ':' {
      FirstFieldIsPrefix(s[1..]);
    }
  }

  /** What follows the first ':' (so its first field is the second element of
      `s.split(':')`), or None when the split has a single element. */
  function AfterFirstColon(s: string): Option<string> {
    if s == [] then None
    else if s[0] == ':' then Some(s[1..])
    else AfterFirstColon(s[1..])
  }

  /** The text splits at its first ':' into the first field and the rest. */
  lemma {:induction false} AfterFirstColonSplits(s: string)
    ensures AfterFirstColon(s).None? <==> ':' !in s
    ensures AfterFirstColon(s).Some? ==> s == FirstField(s) + ":" + AfterFirstColon(s).value
  {
    if s != [] && s[0] != ':' {
      AfterFirstColonSplits(s[1..]);
      assert s == [s[0]] + s[1..];
    }
  }

  /** `timeToMinutes`: -1 for a missing value, otherwise
      `Number(h) * 60 + Number(m)` over the first two ':'-separated fields,
      NaN when either field is not a number or the second one is absent. */
  function TimeToMinutes(time: string): (r: JsNumber)
    ensures time == "" ==> r == Finite(-1)
  {
    if time == "" then Finite(-1)
    else
      var h := ToNumber(FirstField(time));
      var m := match AfterFirstColon(time)
               case None => NaN
               case Some(rest) => ToNumber(FirstField(rest));
      if h.Finite? && m.Finite? then Finite(60 * h.value + m.value) else NaN
  }

  lemma {:induction false} FirstFieldOfJoin(a: string, b: string)
    requires ':' !in a
    ensures FirstField(a + ":" + b) == a
  {
    if a != [] {
      assert (a + ":" + b)[1..] == a[1..] + ":" + b;
      FirstFieldOfJoin(a[1..], b);
    }
  }

  lemma {:induction false} AfterFirstColonOfJoin(a: string, b: string)
    requires ':' !in a
    ensures AfterFirstColon(a + ":" + b) == Some(b)
  {
    if a != [] {
      assert (a + ":" + b)[1..] == a[1..] + ":" + b;
      AfterFirstColonOfJoin(a[1..], b);
    }
  }

  /** Text without a ':' has no second field, so it reads as NaN. */
  lemma TimeToMinutesWithoutColon(time: string)
    requires time != "" && ':' !in time
    ensures TimeToMinutes(time) == NaN
  {
    AfterFirstColonSplits(time);
  }

  lemma NoColonInDigits(s: string)
    requires AllDigits(s)
    ensures ':' !in s
  {
    forall i | 0 <= i < |s| ensures s[i] != ':' { assert IsDigit(s[i]); }
  }

  /** The first field of "H" followed by ":" fields, or by nothing, is "H". */
  lemma FirstFieldBeforeTail(mm: string, tail: string)
    requires ':' !in mm
    requires tail == "" || tail[0] == ':'
    ensures FirstField(mm + tail) == mm
  {
    if tail == "" {
      assert mm + tail == mm;
      FirstFieldIsPrefix(mm);
    } else {
      assert mm + tail == mm + ":" + tail[1..];
      FirstFieldOfJoin(mm, tail[1..]);
    }
  }

  lemma TimeToMinutesOfSplit(s: string, h: string, rest: string, m: string)
    requires s != "" && FirstField(s) == h && AfterFirstColon(s) == Some(rest) && FirstField(rest) == m
    requires AllDigits(h) && AllDigits(m)
    ensures TimeToMinutes(s) == Finite(60 * DigitsValue(h) + DigitsValue(m))
  {
  }

  /** "H:M" (digit fields, possibly followed by further ':' fields) is
      60 * H + M minutes. */
  lemma TimeToMinutesOfFields(hh: string, mm: string, tail: string)
    requires AllDigits(hh) && AllDigits(mm)
    requires tail == "" || tail[0] == ':'
    ensures TimeToMinutes(hh + ":" + (mm + tail)) == Finite(60 * DigitsValue(hh) + DigitsValue(mm))
  {
    NoColonInDigits(hh);
    NoColonInDigits(mm);
    FirstFieldOfJoin(hh, mm + tail);
    AfterFirstColonOfJoin(hh, mm + tail);
    FirstFieldBeforeTail(mm, tail);
    TimeToMinutesOfSplit(hh + ":" + (mm + tail), hh, mm + tail, mm);
  }

  /** A zero-padded "HH:MM" of a valid clock time is read back exactly. */
  lemma TimeToMinutesRoundTrip(h: nat, m: nat)
    requires h < 24 && m < 60
    ensures TimeToMinutes(Pad2(h) + ":" + Pad2(m)) == Finite(60 * h + m)
    ensures 0 <= 60 * h + m < 1440
  {
    Pad2Value(h);
    Pad2Value(m);
    TimeToMinutesOfFields(Pad2(h), Pad2(m), "");
    assert Pad2(h) + ":" + (Pad2(m) + "") == Pad2(h) + ":" + Pad2(m);
  }

  /** `isTimeSlotActive(startKey, endKey)`: start <= now <= end, the end
      minute included; NaN on either side never matches. */
  predicate IsTimeSlotActive(hours: Hours, slot: Slot, now: MinuteOfDay) {
    var s := TimeToMinutes(StartOf(hours, slot));
    var e := TimeToMinutes(EndOf(hours, slot));
    s.Finite? && e.Finite? && s.value <= now && now <= e.value
  }

  /** With well-formed boundaries the window is the closed interval
      [start, end]: the end minute itself is still inside. */
  lemma SlotActiveIffWithin(hours: Hours, slot: Slot, now: MinuteOfDay, h1: nat, m1: nat, h2: nat, m2: nat)
    requires h1 < 24 && m1 < 60 && h2 < 24 && m2 < 60
    requires StartOf(hours, slot) == Pad2(h1) + ":" + Pad2(m1)
    requires EndOf(hours, slot) == Pad2(h2) + ":" + Pad2(m2)
    ensures IsTimeSlotActive(hours, slot, now) <==> 60 * h1 + m1 <= now <= 60 * h2 + m2
  {
    TimeToMinutesRoundTrip(h1, m1);
    TimeToMinutesRoundTrip(h2, m2);
  }

  /** A missing end (-1) closes the window at every minute of the day. */
  lemma MissingEndNeverActive(hours: Hours, slot: Slot, now: MinuteOfDay)
    requires EndOf(hours, slot) == ""
    ensures !IsTimeSlotActive(hours, slot, now)
  {
  }

  /** A boundary without a ':' is NaN, which closes the window too. */
  lemma MalformedBoundaryNeverActive(hours: Hours, slot: Slot, now: MinuteOfDay)
    requires StartOf(hours, slot) != "" && ':' !in StartOf(hours, slot)
    ensures !IsTimeSlotActive(hours, slot, now)
  {
    TimeToMinutesWithoutColon(StartOf(hours, slot));
  }

  /** A missing start (-1) opens the window at midnight: only the end counts. */
  lemma MissingStartOpensAtMidnight(hours: Hours, slot: Slot, now: MinuteOfDay, h2: nat, m2: nat)
    requires h2 < 24 && m2 < 60
    requires StartOf(hours, slot) == ""
    requires EndOf(hours, slot) == Pad2(h2) + ":" + Pad2(m2)
    ensures IsTimeSlotActive(hours, slot, now) <==> now <= 60 * h2 + m2
  {
    TimeToMinutesRoundTrip(h2, m2);
  }

  /** The built-in hours: breakfast 08:00-11:00 and lunch 12:00-15:00, both
      ends included. */
  lemma DefaultWindows(now: MinuteOfDay)
    ensures IsTimeSlotActive(DefaultHours, BreakfastSlot, now) <==> 480 <= now <= 660
    ensures IsTimeSlotActive(DefaultHours, LunchSlot, now) <==> 720 <= now <= 900
  {
    assert "08:00" == Pad2(8) + ":" + Pad2(0);
    assert "11:00" == Pad2(11) + ":" + Pad2(0);
    assert "12:00" == Pad2(12) + ":" + Pad2(0);
    assert "15:00" == Pad2(15) + ":" + Pad2(0);
    SlotActiveIffWithin(DefaultHours, BreakfastSlot, now, 8, 0, 11, 0);
    SlotActiveIffWithin(DefaultHours, LunchSlot, now, 12, 0, 15, 0);
  }
}
