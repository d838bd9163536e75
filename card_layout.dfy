/** The card stack: each track's card is drawn at a tier chosen by its depth,
    its cyclic distance after the current track (`rearrangeCards`). */
module CardLayout {
  import opened TrackIndex

  /** The style `rearrangeCards` writes on a card: vertical offset in pixels,
      scale and opacity in percent, and the CSS z-index. */
  datatype CardStyle = CardStyle(offsetY: nat, scalePercent: nat, zIndex: nat, opacityPercent: nat)

  /** `distanceFromCurrent`: `(index - currentSongIndex + musicData.length) % musicData.length`. */
  function Depth(index: nat, current: nat, n: nat): (d: nat)
    requires index < n && current < n
    ensures d < n
    ensures d == 0 <==> index == current
    ensures d == if index >= current then index - current else index - current + n
    ensures (current + d) % n == index
  {
    DistanceFacts(index, current, n);
    JsRem(index - current + n, n)
  }

  lemma DistanceFacts(index: nat, current: nat, n: nat)
    requires index < n && current < n
    ensures index >= current ==> (index - current + n) % n == index - current
    ensures index < current ==> (index - current + n) % n == index - current + n
    ensures (current + (index - current + n) % n) % n == index
  {
    if index >= current {
      ModOfDecomposition(index - current + n, n, 1, index - current);
      ModOfDecomposition(index, n, 0, index);
    } else {
      ModOfDecomposition(index - current + n, n, 0, index - current + n);
      ModOfDecomposition(index + n, n, 1, index);
    }
  }

  /** The tier for a depth: 0, 1 and 2 get their own tier, everything deeper
      shares the bottom one. Each field moves by a fixed step per tier. */
  function TierOf(depth: nat): (style: CardStyle)
    ensures var tier := if depth < 3 then depth else 3;
      style.offsetY == 15 * tier && style.scalePercent == 100 - 5 * tier &&
      style.zIndex == 5 - tier && style.opacityPercent == 100 - 10 * tier
  {
    if depth == 0 then CardStyle(0, 100, 5, 100)
    else if depth == 1 then CardStyle(15, 95, 4, 90)
    else if depth == 2 then CardStyle(30, 90, 3, 80)
    else CardStyle(45, 85, 2, 70)
  }

  /** Deeper cards are never drawn higher, larger or more opaque, and never
      closer to the top of the stack. */
  lemma TierMonotone(d1: nat, d2: nat)
    requires d1 <= d2
    ensures TierOf(d1).offsetY <= TierOf(d2).offsetY
    ensures TierOf(d1).scalePercent >= TierOf(d2).scalePercent
    ensures TierOf(d1).zIndex >= TierOf(d2).zIndex
    ensures TierOf(d1).opacityPercent >= TierOf(d2).opacityPercent
  {
  }

  /** Only depth 0 gets the top z-index, full scale and full opacity. */
  lemma TopTierOnlyAtDepthZero(d: nat)
    ensures TierOf(d).zIndex == 5 <==> d == 0
    ensures d != 0 ==> TierOf(d).zIndex < TierOf(0).zIndex
    ensures TierOf(d).opacityPercent == 100 <==> d == 0
  {
  }

  /** The styles of all `n` cards when track `current` is active. */
  function Layout(n: nat, current: nat): (cards: seq<CardStyle>)
    requires current < n
    ensures |cards| == n
    ensures forall i :: 0 <= i < n ==> cards[i] == TierOf(Depth(i, current, n))
  {
    seq(n, i requires 0 <= i < n => TierOf(Depth(i, current, n)))
  }

  /** The indices of the cards drawn on top of the stack. */
  function TopCards(cards: seq<CardStyle>): set<nat> {
    set i | 0 <= i < |cards| && cards[i].zIndex == 5
  }

  /** Exactly one card is on top, the current track's, and every other card
      lies strictly below it. */
  lemma ExactlyOneTop(n: nat, current: nat)
    requires current < n
    ensures TopCards(Layout(n, current)) == {current}
    ensures forall i :: 0 <= i < n && i != current ==>
      Layout(n, current)[i].zIndex < Layout(n, current)[current].zIndex
  {
    var cards := Layout(n, current);
    forall i | 0 <= i < n
      ensures cards[i].zIndex == 5 <==> i == current
    {
      TopTierOnlyAtDepthZero(Depth(i, current, n));
    }
  }

  /** Depth is a bijection between cards and positions in the stack: the card
      at depth `k` is the track that `k` presses of next reach. */
  lemma DepthIsAdvance(index: nat, current: nat, n: nat, k: nat)
    requires index < n && current < n && k < n
    ensures Depth(index, current, n) == k <==> index == Advance(current, k, n)
  {
    AdvanceIsModular(current, k, n);
    if current + k < n {
      ModOfDecomposition(current + k, n, 0, current + k);
    } else {
      ModOfDecomposition(current + k, n, 1, current + k - n);
    }
  }

  /** After `handleNext` every card rises one tier, and the card that was on
      top goes to the back of the stack. */
  lemma DepthAfterNext(index: nat, current: nat, n: nat)
    requires index < n && current < n
    ensures Depth(index, NextIndex(current, n), n) == PrevIndex(Depth(index, current, n), n)
  {
  }

  /** `rearrangeCards`: one pass over the cards, writing each card's tier for
      the depth it has relative to `current`. What it leaves does not depend
      on the previous styles, so running it again changes nothing. */
  method Rearrange(cards: array<CardStyle>, current: nat)
    requires current < cards.Length
    modifies cards
    ensures cards[..] == Layout(cards.Length, current)
  {
    var n := cards.Length;
    for index := 0 to n
      invariant forall j :: 0 <= j < index ==> cards[j] == TierOf(Depth(j, current, n))
    {
      var distanceFromCurrent := Depth(index, current, n);
      cards[index] := TierOf(distanceFromCurrent);
    }
  }
}
