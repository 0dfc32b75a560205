/** The dashboard's advertisement carousel (src/components/AdCarousel.jsx):
    the current slide index, moved by the arrows (with wrap-around), by the
    dots and by the five-second auto-advance timer. */
module AdCarousel {

  /** An advertisement as the carousel and the rotator read it. */
  datatype Ad = Ad(id: string, imageUrl: string)

  /** `goToNext`: the last slide wraps to the first. */
  function Next(i: int, len: nat): int {
    if i == len - 1 then 0 else i + 1
  }

  /** `goToPrevious`: the first slide wraps to the last. */
  function Previous(i: int, len: nat): int {
    if i == 0 then len - 1 else i - 1
  }

  /** Both arrows keep a valid index valid. */
  lemma ArrowsStayInRange(i: int, len: nat)
    requires 0 <= i < len
    ensures 0 <= Next(i, len) < len && 0 <= Previous(i, len) < len
  {
  }

  /** The arrows undo each other on every valid index. */
  lemma ArrowsAreInverse(i: int, len: nat)
    requires 0 <= i < len
    ensures Previous(Next(i, len), len) == i
    ensures Next(Previous(i, len), len) == i
  {
  }

  /** JavaScript's `%` on integers: the remainder takes the sign of the
      dividend. */
  function JsRemainder(a: int, b: int): (r: int)
    requires b > 0
    ensures a >= 0 ==> 0 <= r < b
    ensures a >= 0 ==> r == a % b
  {
    if a >= 0 then a % b else -((-a) % b)
  }

  /** One tick of the auto-advance timer: `(i + 1) % ads.length`. */
  function AutoAdvance(i: int, len: nat): int
    requires len > 1
  {
    JsRemainder(i + 1, len)
  }

  /** On a valid index the timer moves exactly like the right arrow. */
  lemma AutoAdvanceIsNext(i: int, len: nat)
    requires len > 1 && 0 <= i < len
    ensures AutoAdvance(i, len) == Next(i, len)
  {
  }

  /** What the carousel renders: nothing for an empty list, otherwise which
      slides are opaque, whether the arrows are drawn, and the slide index
      each dot passes. */
  datatype Frame =
    | Nothing
    | Slides(shown: seq<bool>, arrows: bool, dots: seq<int>)

  function FrameOf(ads: seq<Ad>, currentIndex: int): (f: Frame)
    ensures f == Nothing <==> ads == []
    ensures f.Slides? ==> |f.shown| == |ads| && forall k :: 0 <= k < |ads| ==> (f.shown[k] <==> k == currentIndex)
    ensures f.Slides? ==> (f.arrows <==> |ads| > 1)
    ensures f.Slides? ==> |f.dots| == |ads| && forall k :: 0 <= k < |ads| ==> f.dots[k] == k
  {
    if ads == [] then Nothing
    else Slides(seq(|ads|, k => k == currentIndex), |ads| > 1, seq(|ads|, k => k))
  }

  class Carousel {
    var ads: seq<Ad>
    var currentIndex: int

    constructor (ads: seq<Ad>)
      ensures this.ads == ads && currentIndex == 0
    {
      this.ads := ads;
      currentIndex := 0;
    }

    predicate Valid()
      reads this
    {
      0 <= currentIndex < |ads|
    }

    method GoToNext()
      modifies this`currentIndex
      ensures currentIndex == Next(old(currentIndex), |ads|)
      ensures old(Valid()) ==> Valid()
    {
      var isLastSlide := currentIndex == |ads| - 1;
      currentIndex := if isLastSlide then 0 else currentIndex + 1;
    }

    method GoToPrevious()
      modifies this`currentIndex
      ensures currentIndex == Previous(old(currentIndex), |ads|)
      ensures old(Valid()) ==> Valid()
    {
      var isFirstSlide := currentIndex == 0;
      currentIndex := if isFirstSlide then |ads| - 1 else currentIndex - 1;
    }

    /** `goToSlide`: the index as given. */
    method GoToSlide(slideIndex: int)
      modifies this`currentIndex
      ensures currentIndex == slideIndex
    {
      currentIndex := slideIndex;
    }

    /** A press on the dot at position `dot`: the slide it names, which is
        always a valid index. */
    method PressDot(dot: nat)
      requires dot < |ads|
      modifies this`currentIndex
      ensures currentIndex == FrameOf(ads, old(currentIndex)).dots[dot]
      ensures Valid()
    {
      var frame := FrameOf(ads, currentIndex);
      GoToSlide(frame.dots[dot]);
    }

    /** One interval tick; no timer is installed for fewer than two ads. */
    method Tick()
      modifies this`currentIndex
      ensures |ads| > 1 ==> currentIndex == AutoAdvance(old(currentIndex), |ads|)
      ensures |ads| <= 1 ==> currentIndex == old(currentIndex)
      ensures old(Valid()) ==> Valid()
    {
      if |ads| > 1 {
        currentIndex := JsRemainder(currentIndex + 1, |ads|);
      }
    }
  }
}
