/** The stand-alone status panel (src/components/CanteenStatus.jsx): a
    fixed-hours classification of the time of day into a meal or CLOSED,
    and the menu of the current meal, fetched only while open. */
module CanteenStatus {
  import opened Common
  import Menu

  /** The panel's `status`: "LOADING" until the effect ran, then a meal or
      "CLOSED". */
  datatype Status = Loading | Closed | Breakfast | Lunch | Snacks

  /** The status text, which is also the `category` the menu filter keeps. */
  function StatusName(s: Status): string {
    match s
    case Loading => "LOADING"
    case Closed => "CLOSED"
    case Breakfast => "Breakfast"
    case Lunch => "Lunch"
    case Snacks => "Snacks"
  }

  /** The hour of the day as a fraction: hours plus minutes over sixty. */
  function ClockHour(hours: nat, minutes: nat): real {
    hours as real + minutes as real / 60.0
  }

  /** The if-chain over `operatingHours`: each meal's window includes its
      start and excludes its end, and the first matching meal wins. */
  function Classify(hour: real): (s: Status)
    ensures s == Breakfast <==> 8.0 <= hour < 10.5
    ensures s == Lunch <==> 12.0 <= hour < 14.5
    ensures s == Snacks <==> 16.0 <= hour < 18.0
    ensures s == Closed <==> hour < 8.0 || (10.5 <= hour < 12.0) || (14.5 <= hour < 16.0) || 18.0 <= hour
    ensures s != Loading
  {
    if 8.0 <= hour < 10.5 then Breakfast
    else if 12.0 <= hour < 14.5 then Lunch
    else if 16.0 <= hour < 18.0 then Snacks
    else Closed
  }

  /** On a wall clock the windows are 08:00-10:29, 12:00-14:29 and
      16:00-17:59: 10:30, 14:30 and 18:00 are already outside. */
  lemma ClassifyByMinute(hours: nat, minutes: nat)
    requires minutes < 60
    ensures var m := 60 * hours + minutes;
            (Classify(ClockHour(hours, minutes)) == Breakfast <==> 480 <= m < 630)
            && (Classify(ClockHour(hours, minutes)) == Lunch <==> 720 <= m < 870)
            && (Classify(ClockHour(hours, minutes)) == Snacks <==> 960 <= m < 1080)
  {
    var h := ClockHour(hours, minutes);
    assert h * 60.0 == (60 * hours + minutes) as real;
  }

  /** The status as written: the hour is the constant 17, whatever the
      clock says. */
  function ClassifyAsWritten(hours: nat, minutes: nat): Status {
    Classify(17.0)
  }

  /** At 09:00 the written panel reports Snacks although breakfast is being
      served; it reports Snacks at every time of day. */
  lemma AsWrittenIgnoresClock(hours: nat, minutes: nat)
    ensures ClassifyAsWritten(hours, minutes) == Snacks
    ensures Classify(ClockHour(9, 0)) == Breakfast && ClassifyAsWritten(9, 0) != Classify(ClockHour(9, 0))
  {
  }

  /** The status the panel evidently means to show: the classification of
      the current clock hour. */
  function CurrentStatus(hours: nat, minutes: nat): (s: Status)
    requires minutes < 60
    ensures s == Breakfast <==> 480 <= 60 * hours + minutes < 630
    ensures s == Lunch <==> 720 <= 60 * hours + minutes < 870
    ensures s == Snacks <==> 960 <= 60 * hours + minutes < 1080
  {
    ClassifyByMinute(hours, minutes);
    Classify(ClockHour(hours, minutes))
  }

  /** `filteredMenu`: the items whose category is the status, in menu order;
      stock is not consulted. */
  function FilteredMenu(menuItems: seq<Menu.MenuItem>, status: Status): (r: seq<Menu.MenuItem>)
    ensures SubsequenceOf(r, menuItems)
    ensures forall item :: item in r <==> item in menuItems && item.category == StatusName(status)
  {
    Filter(menuItems, (item: Menu.MenuItem) => item.category == StatusName(status))
  }

  /** An item of the current meal is listed even when it is out of stock. */
  lemma SoldOutItemsListed(menuItems: seq<Menu.MenuItem>, status: Status, item: Menu.MenuItem)
    requires item in menuItems && item.category == StatusName(status) && item.stock <= 0
    ensures item in FilteredMenu(menuItems, status)
  {
  }

  /** What the panel renders. */
  datatype Panel =
    | LoadingPanel
    | ClosedPanel
    | MealMenu(title: string, items: seq<Menu.MenuItem>)
    | NoItemsPanel(meal: string)

  class StatusPanel {
    var status: Status
    var menuItems: seq<Menu.MenuItem>

    constructor ()
      ensures status == Loading && menuItems == []
    {
      status := Loading;
      menuItems := [];
    }

    /** `fetchMenuAndSetStatus`, reading the clock: the status is set, and
        the menu is requested (reported by `fetched`) only when the status
        is not CLOSED; a failed request (None) leaves the items as they
        were. */
    method FetchMenuAndSetStatus(hours: nat, minutes: nat, reply: Option<seq<Menu.MenuItem>>)
      returns (fetched: bool)
      requires minutes < 60
      modifies this
      ensures status == CurrentStatus(hours, minutes)
      ensures fetched <==> status != Closed
      ensures menuItems == if fetched && reply.Some? then reply.value else old(menuItems)
    {
      var currentStatus := Closed;
      var hour := ClockHour(hours, minutes);
      if 8.0 <= hour < 10.5 {
        currentStatus := Breakfast;
      } else if 12.0 <= hour < 14.5 {
        currentStatus := Lunch;
      } else if 16.0 <= hour < 18.0 {
        currentStatus := Snacks;
      }
      status := currentStatus;
      fetched := false;
      if currentStatus != Closed {
        fetched := true;
        if reply.Some? {
          menuItems := reply.value;
        }
      }
    }

    function Render(): (p: Panel)
      reads this
      ensures p == LoadingPanel <==> status == Loading
      ensures p == ClosedPanel <==> status == Closed
      ensures p.MealMenu? ==> p.items == FilteredMenu(menuItems, status) && p.items != []
      ensures p.NoItemsPanel? <==> status != Loading && status != Closed && FilteredMenu(menuItems, status) == []
    {
      if status == Loading then LoadingPanel
      else if status == Closed then ClosedPanel
      else
        var items := FilteredMenu(menuItems, status);
        if items != [] then MealMenu("Today's " + StatusName(status) + " Menu", items)
        else NoItemsPanel(StatusName(status))
    }
  }
}
