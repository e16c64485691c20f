/**
 * The arithmetic every sensor view model shares: the exponential moving
 * average each of them applies to a new sample, Swift's `min`, `max` and
 * `abs` on `Double` (modelled as exact reals), and the sign of products.
 */
module Smoothing {

  function Min(a: real, b: real): (r: real)
    ensures r <= a && r <= b && (r == a || r == b)
  {
    if a <= b then a else b
  }

  function Max(a: real, b: real): (r: real)
    ensures r >= a && r >= b && (r == a || r == b)
  {
    if a >= b then a else b
  }

  function Abs(x: real): (r: real)
    ensures r >= 0.0 && (r == x || r == -x)
  {
    if x < 0.0 then -x else x
  }

  /**
   * `d * a` for a factor `a` in [0,1]: a fraction of `d` with the same
   * sign, zero only when `d` is or the factor is.
   */
  function Scale(d: real, a: real): (r: real)
    requires 0.0 <= a <= 1.0
    ensures 0.0 <= d ==> 0.0 <= r <= d
    ensures d <= 0.0 ==> d <= r <= 0.0
    ensures 0.0 < a ==> (r == 0.0 <==> d == 0.0)
    ensures d - r == d * (1.0 - a)
  {
    d * a
  }

  /**
   * One smoothing step, `s += (x - s) * alpha`: the new value lies between
   * the old one and the sample, and its distance to the sample shrinks by
   * the factor `1 - alpha`. With a positive factor it stays put only when it
   * already equals the sample.
   */
  function Ema(s: real, x: real, alpha: real): (r: real)
    requires 0.0 <= alpha <= 1.0
    ensures s <= x ==> s <= r <= x
    ensures x <= s ==> x <= r <= s
    ensures x - r == (1.0 - alpha) * (x - s)
    ensures 0.0 < alpha ==> (r == s <==> s == x)
  {
    s + Scale(x - s, alpha)
  }

  // Products of non-negative numbers

  /** A square is never negative. */
  lemma SquareNonNegative(v: real)
    ensures 0.0 <= v * v
  {
    if v < 0.0 {
      ProductNonNegative(-v, -v);
      assert (-v) * (-v) == v * v;
    } else {
      ProductNonNegative(v, v);
    }
  }

  lemma ProductNonNegative(a: real, b: real)
    requires 0.0 <= a && 0.0 <= b
    ensures 0.0 <= a * b
  {
  }

  lemma ProductPositive(a: real, b: real)
    requires 0.0 < a && 0.0 < b
    ensures 0.0 < a * b
  {
  }
}
