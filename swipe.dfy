/** The swipe classifier of the card stack (`handleTouchEnd` and the decision
    in `swipeCard`): horizontal displacement beyond a strict threshold of 50
    pixels is a swipe; a swipe to the right goes to the previous track and a
    swipe to the left to the next one. */
module Swipe {
  import opened TrackIndex

  /** `SWIPE_THRESHOLD`. */
  const SwipeThreshold: int := 50

  datatype Gesture = NoSwipe | SwipeLeft | SwipeRight

  function Abs(x: int): (r: nat)
    ensures r == x || r == -x
  {
    if x < 0 then -x else x
  }

  /** `handleTouchEnd`: classify the displacement `endX - startX`. */
  function Classify(startX: int, endX: int): (g: Gesture)
    ensures g == NoSwipe <==> -SwipeThreshold <= endX - startX <= SwipeThreshold
    ensures g == SwipeRight <==> endX - startX > SwipeThreshold
    ensures g == SwipeLeft <==> endX - startX < -SwipeThreshold
  {
    var diffX := endX - startX;
    if Abs(diffX) > SwipeThreshold then
      if diffX > 0 then SwipeRight else SwipeLeft
    else NoSwipe
  }

  /** Only the displacement matters, not where on the screen the touch was. */
  lemma ClassifyTranslationInvariant(startX: int, endX: int, shift: int)
    ensures Classify(startX + shift, endX + shift) == Classify(startX, endX)
  {
  }

  /** The reverse movement gives the opposite swipe. */
  function Mirror(g: Gesture): Gesture {
    match g
    case NoSwipe => NoSwipe
    case SwipeLeft => SwipeRight
    case SwipeRight => SwipeLeft
  }

  lemma ClassifyReversed(startX: int, endX: int)
    ensures Classify(endX, startX) == Mirror(Classify(startX, endX))
  {
  }

  /** The threshold is strict: 49 and 50 pixels either way do nothing, 51
      pixels to the left is next and 51 to the right is previous. */
  lemma ThresholdBoundaries(x: int)
    ensures Classify(x, x + 49) == NoSwipe && Classify(x, x - 49) == NoSwipe
    ensures Classify(x, x + 50) == NoSwipe && Classify(x, x - 50) == NoSwipe
    ensures Classify(x, x + 51) == SwipeRight && Classify(x, x - 51) == SwipeLeft
  {
  }

  /** The track a gesture leads to from track `i` of `n` (`swipeCard`): left
      calls `handleNext`, right calls `handlePrev`. */
  function Target(g: Gesture, i: nat, n: nat): (j: nat)
    requires i < n
    ensures j < n
    ensures g == NoSwipe ==> j == i
    ensures g == SwipeLeft ==> j == (if i == n - 1 then 0 else i + 1)
    ensures g == SwipeRight ==> j == (if i == 0 then n - 1 else i - 1)
  {
    match g
    case NoSwipe => i
    case SwipeLeft => NextIndex(i, n)
    case SwipeRight => PrevIndex(i, n)
  }

  /** A swipe followed by the same movement in reverse is back on the track
      it started from. */
  lemma {:induction false} SwipeThenReverseRestores(startX: int, endX: int, i: nat, n: nat)
    requires i < n
    ensures Target(Classify(endX, startX), Target(Classify(startX, endX), i, n), n) == i
  {
    ClassifyReversed(startX, endX);
    PrevNextInverse(i, n);
  }
}
