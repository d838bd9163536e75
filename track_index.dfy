/** Index arithmetic of the player: which track comes next or before the
    current one in a playlist of `n` tracks, with wrap-around at both ends. */
module TrackIndex {

  /** JavaScript's `%` on numbers: the remainder truncates toward zero, so it
      takes the sign of the dividend (unlike Dafny's Euclidean `%`). */
  function JsRem(a: int, b: int): (r: int)
    requires b > 0
    ensures a >= 0 ==> 0 <= r < b
    ensures a >= 0 ==> r == a % b
    ensures a < 0 ==> -b < r <= 0
  {
    if a >= 0 then a % b else -((-a) % b)
  }

  /** `handleNext`: `(currentSongIndex + 1) % musicData.length`. */
  function NextIndex(i: nat, n: nat): (j: nat)
    requires i < n
    ensures j < n
    ensures j == if i == n - 1 then 0 else i + 1
  {
    JsRem(i + 1, n)
  }

  /** `handlePrev`: `(currentSongIndex - 1 + musicData.length) % musicData.length`. */
  function PrevIndex(i: nat, n: nat): (j: nat)
    requires i < n
    ensures j < n
    ensures j == if i == 0 then n - 1 else i - 1
  {
    JsRem(i - 1 + n, n)
  }

  /** Going forward then back, or back then forward, returns to the same track. */
  lemma PrevNextInverse(i: nat, n: nat)
    requires i < n
    ensures PrevIndex(NextIndex(i, n), n) == i
    ensures NextIndex(PrevIndex(i, n), n) == i
  {
  }

  /** The track reached from `i` after `k` successive `handleNext` calls
      (for example `k` tracks ending one after the other). */
  function Advance(i: nat, k: nat, n: nat): (j: nat)
    requires i < n
    ensures j < n
  {
    if k == 0 then i else NextIndex(Advance(i, k - 1, n), n)
  }

  /** `k` steps forward land on `(i + k) mod n`: auto-continue cycles through
      the playlist and is back at the start after exactly `n` tracks. */
  lemma AdvanceIsModular(i: nat, k: nat, n: nat)
    requires i < n
    ensures Advance(i, k, n) == (i + k) % n
  {
    var q := AdvanceQuotient(i, k, n);
    ModOfDecomposition(i + k, n, q, Advance(i, k, n));
  }

  /** Each wrap-around counts one whole round: `i + k` is a number of rounds
      plus the track reached. */
  lemma {:induction false} AdvanceQuotient(i: nat, k: nat, n: nat) returns (rounds: nat)
    requires i < n
    ensures i + k == rounds * n + Advance(i, k, n)
  {
    if k == 0 {
      rounds := 0;
    } else {
      var before := AdvanceQuotient(i, k - 1, n);
      if Advance(i, k - 1, n) == n - 1 {
        rounds := before + 1;
        assert rounds * n == before * n + n;
      } else {
        rounds := before;
      }
    }
  }

  /** A whole round of `n` steps returns to the starting track. */
  lemma FullCycle(i: nat, n: nat)
    requires i < n
    ensures Advance(i, n, n) == i
  {
    AdvanceIsModular(i, n, n);
    ModOfDecomposition(i + n, n, 1, i);
  }

  /** Division with remainder is unique: if `x == q * n + r` with `0 <= r < n`,
      then `q` and `r` are Dafny's quotient and remainder. */
  lemma ModOfDecomposition(x: int, n: int, q: int, r: int)
    requires n > 0 && 0 <= r < n && x == q * n + r
    ensures x / n == q && x % n == r
  {
    var q', r' := x / n, x % n;
    assert (q - q') * n == r' - r;
    if q > q' {
      MulAtLeast(q - q', n);
    } else if q < q' {
      MulAtLeast(q' - q, n);
    }
  }

  lemma MulAtLeast(d: int, n: int)
    requires d >= 1 && n > 0
    ensures d * n >= n
  {
  }
}
