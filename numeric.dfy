/** Number semantics of the two source languages that differ from Dafny's:
    Python's round-half-to-even `round()` and `round(x, n)`, JavaScript's `Math.round` and
    JavaScript's `%`. */
module Numeric {

  /** Python's `round(x)` on an exactly represented value: the nearest integer, ties to even. */
  function RoundHalfEven(x: real): (r: int)
    ensures -1.0 / 2.0 <= x - r as real <= 1.0 / 2.0
    ensures x - r as real == 1.0 / 2.0 || x - r as real == -1.0 / 2.0 ==> r % 2 == 0
  {
    var f := x.Floor;
    var frac := x - f as real;
    if frac < 1.0 / 2.0 then f
    else if frac > 1.0 / 2.0 then f + 1
    else if f % 2 == 0 then f else f + 1
  }

  /** `10^n`, the scale of `n` decimal places. */
  function Pow10(n: nat): (p: int)
    ensures p >= 1
  {
    if n == 0 then 1 else 10 * Pow10(n - 1)
  }

  /** The number of `10^-places` units nearest to `x`, ties to the even count. */
  function Units(x: real, places: nat): int
  {
    RoundHalfEven(x * Pow10(places) as real)
  }

  /** Dividing by a positive scale and multiplying back gives the number again. */
  lemma Unscale(n: int, p: real)
    requires p >= 1.0
    ensures (n as real / p) * p == n as real
  {
  }

  /** Python's `round(x, places)` on an exactly represented value: the multiple of
      `10^-places` nearest to `x`, ties to the even multiple. */
  function RoundTo(x: real, places: nat): (r: real)
    ensures r * Pow10(places) as real == Units(x, places) as real
    ensures -1.0 / 2.0 <= (x - r) * Pow10(places) as real <= 1.0 / 2.0
  {
    Unscale(Units(x, places), Pow10(places) as real);
    Units(x, places) as real / Pow10(places) as real
  }

  /** A product with a positive factor has the other factor's sign. */
  lemma SignOfProduct(a: real, b: real)
    requires b > 0.0
    ensures (a > 0.0 <==> a * b > 0.0) && (a < 0.0 <==> a * b < 0.0)
  {
  }

  /** Rounding keeps the sign: a loss never rounds to a gain, nor a gain to a loss. */
  lemma RoundToSign(x: real, places: nat)
    ensures x <= 0.0 ==> RoundTo(x, places) <= 0.0
    ensures x >= 0.0 ==> RoundTo(x, places) >= 0.0
    ensures x == 0.0 ==> RoundTo(x, places) == 0.0
  {
    var p := Pow10(places) as real;
    SignOfProduct(x, p);
    SignOfProduct(RoundTo(x, places), p);
  }

  /** Scaling by a positive factor keeps order. */
  lemma ScaleMonotone(a: real, b: real, p: real)
    requires a <= b && p > 0.0
    ensures a * p <= b * p
  {
    SignOfProduct(b - a, p);
  }

  /** A value between two integers rounds to a value between them. */
  lemma RoundToBetween(x: real, places: nat, lo: int, hi: int)
    requires lo as real <= x <= hi as real
    ensures lo as real <= RoundTo(x, places) <= hi as real
  {
    var p := Pow10(places);
    ProductAsReal(lo, p);
    ProductAsReal(hi, p);
    RoundedBetween(x, p as real, Units(x, places), RoundTo(x, places), lo, hi, lo * p, hi * p);
  }

  /** The order argument behind `RoundToBetween`, on a scale `p` and its rounded units `n`. */
  lemma RoundedBetween(x: real, p: real, n: int, r: real, lo: int, hi: int, lp: int, hp: int)
    requires p > 0.0 && lp as real == lo as real * p && hp as real == hi as real * p
    requires -1.0 / 2.0 <= x * p - n as real <= 1.0 / 2.0 && r * p == n as real
    requires lo as real <= x <= hi as real
    ensures lo as real <= r <= hi as real
  {
    ScaleMonotone(lo as real, x, p);
    ScaleMonotone(x, hi as real, p);
    UnitsBetween(x * p, n, lp, hp);
    UnscaledBetween(r, p, lo, hi);
  }

  /** The nearest integer to a value between two integers lies between them. */
  lemma UnitsBetween(y: real, n: int, lo: int, hi: int)
    requires lo as real <= y <= hi as real
    requires -1.0 / 2.0 <= y - n as real <= 1.0 / 2.0
    ensures lo <= n <= hi
  {
  }

  /** A number whose scaled value lies between two scaled integers lies between them. */
  lemma UnscaledBetween(r: real, p: real, lo: int, hi: int)
    requires p > 0.0
    requires lo as real * p <= r * p <= hi as real * p
    ensures lo as real <= r <= hi as real
  {
    if r < lo as real {
      SignOfProduct(lo as real - r, p);
    }
    if r > hi as real {
      SignOfProduct(r - hi as real, p);
    }
  }

  /** Integer products agree with real products. */
  lemma ProductAsReal(a: int, b: int)
    ensures (a * b) as real == a as real * b as real
  {
  }

  /** JavaScript's `Math.round(x)`: the nearest integer, ties towards +infinity. */
  function JsRound(x: real): (r: int)
    ensures -1.0 / 2.0 <= x - r as real < 1.0 / 2.0
  {
    (x + 1.0 / 2.0).Floor
  }

  /** JavaScript's `a % b` on integers: the remainder takes the sign of the dividend
      (truncating division), unlike Dafny's Euclidean `%`. */
  function JsRem(a: int, b: int): (r: int)
    requires b > 0
    ensures a >= 0 ==> 0 <= r < b
    ensures a < 0 ==> -b < r <= 0
    ensures a >= 0 ==> r == a % b
  {
    if a >= 0 then a % b else -((-a) % b)
  }
}
