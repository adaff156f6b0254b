/**
 * The rounding operations the price engine uses, on exact reals:
 * `Math.round` (to the nearest integer, ties toward +infinity) and
 * `parseFloat(x.toFixed(d))` for the two precisions it asks for, d = 2
 * and d = 3 (to d decimals, ties away from zero).
 */
module Rounding {

  /** `Math.round(y)`: the integer nearest to `y`, a tie going up. */
  function RoundHalfUp(y: real): (k: int)
    ensures k as real - 0.5 <= y < k as real + 0.5
  {
    (y + 0.5).Floor
  }

  /**
   * The integer nearest to `y`, a tie going away from zero: the rule
   * `toFixed` applies to a value already scaled by 10^d (it rounds the
   * magnitude half up and puts the sign back).
   */
  function HalfAwayFromZero(y: real): (k: int)
    ensures y >= 0.0 ==> 0 <= k && k as real - 0.5 <= y < k as real + 0.5
    ensures y < 0.0 ==> k <= 0 && k as real - 0.5 < y <= k as real + 0.5
  {
    if y < 0.0 then -RoundHalfUp(-y) else RoundHalfUp(y)
  }

  /** True when `x` has no more than `scale`'s decimals (scale = 10^d). */
  predicate HasDecimals(x: real, scale: real)
  {
    (x * scale).Floor as real == x * scale
  }

  /** `parseFloat(x.toFixed(2))`. */
  function ToFixed2(x: real): (r: real)
    ensures -0.005 <= r - x <= 0.005
    ensures HasDecimals(r, 100.0)
    ensures x >= 0.0 ==> r >= 0.0
    ensures x <= 0.0 ==> r <= 0.0
  {
    var k := HalfAwayFromZero(x * 100.0);
    ScaleBack(k, 100.0);
    k as real / 100.0
  }

  /** `parseFloat(x.toFixed(3))`. */
  function ToFixed3(x: real): (r: real)
    ensures -0.0005 <= r - x <= 0.0005
    ensures HasDecimals(r, 1000.0)
    ensures x >= 0.0 ==> r >= 0.0
    ensures x <= 0.0 ==> r <= 0.0
  {
    var k := HalfAwayFromZero(x * 1000.0);
    ScaleBack(k, 1000.0);
    k as real / 1000.0
  }

  /** Scaling an integer down and up again gives it back. */
  lemma ScaleBack(k: int, scale: real)
    requires scale > 0.0
    ensures (k as real / scale) * scale == k as real
    ensures HasDecimals(k as real / scale, scale)
  {
  }

  /**
   * Rounding to 2 decimals keeps a non-negative value inside an interval
   * whose ends `lo / 100` and `hi / 100` are themselves 2-decimal numbers.
   */
  lemma ToFixed2Between(x: real, lo: int, hi: int)
    requires 0.0 <= x
    requires lo as real - 0.5 <= x * 100.0 < hi as real + 0.5
    ensures lo as real / 100.0 <= ToFixed2(x) <= hi as real / 100.0
  {
    var k := HalfAwayFromZero(x * 100.0);
    assert lo <= k <= hi;
  }

  /** The same for 3 decimals, with ends `lo / 1000` and `hi / 1000`. */
  lemma ToFixed3Between(x: real, lo: int, hi: int)
    requires 0.0 <= x
    requires lo as real - 0.5 <= x * 1000.0 < hi as real + 0.5
    ensures lo as real / 1000.0 <= ToFixed3(x) <= hi as real / 1000.0
  {
    var k := HalfAwayFromZero(x * 1000.0);
    assert lo <= k <= hi;
  }
}
