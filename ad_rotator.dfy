/** The advertisement rotator (src/components/AdRotator.jsx): the ad list
    replaced only when a fetch returns a different one, the index reset on
    every replacement, and the thirty-minute rotation. */
module AdRotator {
  import opened Common
  import opened Text
  import opened AdCarousel

  /** The result of `GET /advertisements/active`: a failure, or the reply
      body (None when it is empty, which `|| []` turns into no ads). */
  datatype AdsFetch = FetchFailed | Fetched(data: Option<seq<Ad>>)

  /** The list a successful fetch offers. */
  function Offered(data: Option<seq<Ad>>): seq<Ad> {
    match data
    case Some(list) => list
    case None => []
  }

  /** The change test of line 28: a different length or a different JSON
      text. The JSON texts of two ad lists are equal exactly when the lists
      are, so the test is plain inequality. */
  lemma ChangeTestIsInequality(newAds: seq<Ad>, ads: seq<Ad>)
    ensures (|newAds| != |ads| || newAds != ads) <==> newAds != ads
  {
  }

  /** What the rotator renders. */
  datatype View = LoadingAds | NoAds | Showing(ad: Ad, position: nat, count: nat)

  /** The caption under the ad. */
  function Caption(v: View): string
    requires v.Showing?
  {
    "Advertisement (" + DecimalText(v.position) + " of " + DecimalText(v.count) + ")"
  }

  class Rotator {
    var ads: seq<Ad>
    var currentAdIndex: int
    var loading: bool

    constructor ()
      ensures ads == [] && currentAdIndex == 0 && loading
      ensures Valid()
    {
      ads := [];
      currentAdIndex := 0;
      loading := true;
    }

    /** The index always names an ad, unless there are none. */
    predicate Valid()
      reads this
    {
      ads == [] || 0 <= currentAdIndex < |ads|
    }

    /** `fetchActiveAds`: a list different from the current one replaces it
        and restarts at the first ad; the same list, or a failure, leaves
        both alone; loading ends either way. */
    method FetchActiveAds(result: AdsFetch)
      requires Valid()
      modifies this
      ensures Valid() && !loading
      ensures result.Fetched? && Offered(result.data) != old(ads) ==>
        ads == Offered(result.data) && currentAdIndex == 0
      ensures result.FetchFailed? || Offered(result.data) == old(ads) ==>
        ads == old(ads) && currentAdIndex == old(currentAdIndex)
    {
      match result {
        case FetchFailed =>
          loading := false;
        case Fetched(data) =>
          var newAds := Offered(data);
          if |newAds| != |ads| || newAds != ads {
            ads := newAds;
            currentAdIndex := 0;
          }
          loading := false;
      }
    }

    /** One rotation tick; the timer exists only for two or more ads. */
    method Rotate()
      requires Valid()
      modifies this`currentAdIndex
      ensures Valid()
      ensures |ads| >= 2 ==> currentAdIndex == AutoAdvance(old(currentAdIndex), |ads|)
      ensures |ads| >= 2 ==> currentAdIndex == Next(old(currentAdIndex), |ads|)
      ensures |ads| < 2 ==> currentAdIndex == old(currentAdIndex)
    {
      if |ads| >= 2 {
        AutoAdvanceIsNext(currentAdIndex, |ads|);
        currentAdIndex := JsRemainder(currentAdIndex + 1, |ads|);
      }
    }

    /** The loading text, the empty notice, or the current ad with its
        one-based position. */
    function Render(): (v: View)
      requires Valid()
      reads this
      ensures v == LoadingAds <==> loading
      ensures v == NoAds <==> !loading && ads == []
      ensures v.Showing? ==> v.ad == ads[currentAdIndex] && v.position == currentAdIndex + 1 && v.count == |ads|
      ensures v.Showing? ==> 1 <= v.position <= v.count
    {
      if loading then LoadingAds
      else if ads == [] then NoAds
      else Showing(ads[currentAdIndex], currentAdIndex + 1, |ads|)
    }
  }
}
