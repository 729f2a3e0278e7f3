/** `frontend/src/components/ads/AdComponents.jsx`: where the in-feed ad appears among the
    leaderboard rows. The AdSense push itself is not modelled. */
module Ads {
  import opened Numeric

  /** `InFeedAd` renders an ad iff `index % 10 === 9`, with JavaScript's remainder. On
      non-negative indices that is every tenth row, starting after row 9; a negative index
      has a remainder of at most 0 and never gets an ad. */
  function ShowsAd(index: int): (r: bool)
    ensures index >= 0 ==> (r <==> index % 10 == 9)
    ensures 0 <= index <= 8 ==> !r
    ensures index < 0 ==> !r
  {
    JsRem(index, 10) == 9
  }

  /** Whether the `j`-th index counted from `from` gets an ad. */
  predicate AdAt(from: int, j: int) { ShowsAd(from + j) }

  /** The indices in `[from, from + n)` that get an ad. */
  function AdsIn(from: int, n: nat): (r: nat)
    ensures r <= n
  {
    if n == 0 then 0 else AdsIn(from, n - 1) + (if AdAt(from, n - 1) then 1 else 0)
  }

  /** Every block of ten consecutive non-negative indices holds exactly one ad. */
  lemma {:induction false} OneAdPerTen(from: int)
    requires from >= 0
    ensures AdsIn(from, 10) == 1
  {
    var k := (9 - from % 10) % 10;
    assert (from + k) % 10 == 9;
    forall j | 0 <= j < 10
      ensures AdAt(from, j) <==> j == k
    {
    }
    AdsUpTo(from, 10, k);
  }

  /** Counting over `[from, from + n)` when exactly the index `from + k` gets an ad. */
  lemma {:induction false} AdsUpTo(from: int, n: nat, k: nat)
    requires forall j :: 0 <= j < n ==> (AdAt(from, j) <==> j == k)
    ensures AdsIn(from, n) == if k < n then 1 else 0
  {
    if n > 0 {
      AdsUpTo(from, n - 1, k);
    }
  }

  /** A window splits into two consecutive windows. */
  lemma {:induction false} AdsInSplit(from: int, a: nat, b: nat)
    ensures AdsIn(from, a + b) == AdsIn(from, a) + AdsIn(from + a, b)
  {
    if b > 0 {
      AdsInSplit(from, a, b - 1);
      assert AdAt(from + a, b - 1) == AdAt(from, a + b - 1);
    }
  }

  /** `q` blocks of ten non-negative rows hold exactly `q` ads. */
  lemma {:induction false} AdsInTens(from: int, q: nat)
    requires from >= 0
    ensures AdsIn(from, 10 * q) == q
  {
    if q > 0 {
      AdsInTens(from, q - 1);
      AdsInSplit(from, 10 * (q - 1), 10);
      OneAdPerTen(from + 10 * (q - 1));
    }
  }
}
