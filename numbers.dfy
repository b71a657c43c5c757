/**
 * Number helpers shared by every variant.  Coordinates are exact reals here;
 * the only rounding the scripts do themselves is Python's `int()` on the
 * camera offsets, which truncates toward zero (not toward minus infinity,
 * which is what Dafny's `Floor` does for negative numbers).
 */
module Numbers {

  /** True when `x` has no fractional part. */
  predicate IsIntegral(x: real) {
    x == x.Floor as real
  }

  /** Python's `int(x)` for a float `x`: drop the fraction, rounding toward zero. */
  function Trunc(x: real): (n: int)
    ensures 0.0 <= x ==> n as real <= x < n as real + 1.0
    ensures x < 0.0 ==> n as real - 1.0 < x <= n as real
  {
    if 0.0 <= x then x.Floor else -((-x).Floor)
  }

  /** Truncation is the identity on whole numbers, so truncating twice is truncating once. */
  lemma TruncOfIntegral(x: real)
    requires IsIntegral(x)
    ensures Trunc(x) as real == x
  {
    var n := x.Floor;
    if x < 0.0 {
      assert -x == (-n) as real;
      assert (-x).Floor == -n;
    }
  }
}
