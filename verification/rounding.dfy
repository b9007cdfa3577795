/**
 * Rounding to two decimal places, as the script's `round(x, 2)` does.
 *
 * Python rounds the exact value of its argument to the nearest hundredth,
 * breaking exact ties towards the even neighbour. Here that rule is applied
 * to an exact real number.
 */
module Rounding {

  /** `x` is a whole number of hundredths. */
  predicate IsCents(x: real)
  {
    (x * 100.0).Floor as real == x * 100.0
  }

  /** The whole number nearest to `y`; an exact tie goes to the even one. */
  function RoundHalfEven(y: real): (n: int)
    ensures -0.5 <= n as real - y <= 0.5
    ensures y.Floor as real == y ==> n as real == y
  {
    var f := y.Floor;
    var d := y - f as real;
    if d < 0.5 then f
    else if d > 0.5 then f + 1
    else if f % 2 == 0 then f
    else f + 1
  }

  /** `round(x, 2)`: a whole number of hundredths within half a hundredth of `x`. */
  function Round2(x: real): (r: real)
    ensures IsCents(r)
    ensures -0.005 <= r - x <= 0.005
  {
    RoundHalfEven(x * 100.0) as real / 100.0
  }

  lemma RoundHalfEvenMonotone(y: real, y': real)
    requires y <= y'
    ensures RoundHalfEven(y) <= RoundHalfEven(y')
  {
    var f, f' := y.Floor, y'.Floor;
    assert f <= f';
    if f == f' {
      assert y - f as real <= y' - f' as real;
    }
  }

  /** Rounding never reverses the order of two values. */
  lemma Round2Monotone(x: real, x': real)
    requires x <= x'
    ensures Round2(x) <= Round2(x')
  {
    RoundHalfEvenMonotone(x * 100.0, x' * 100.0);
  }

  /** A value already in hundredths is left as it is, so rounding twice is rounding once. */
  lemma Round2Fixes(x: real)
    requires IsCents(x)
    ensures Round2(x) == x
  {
    assert RoundHalfEven(x * 100.0) as real == x * 100.0;
  }

  lemma Round2Idempotent(x: real)
    ensures Round2(Round2(x)) == Round2(x)
  {
    Round2Fixes(Round2(x));
  }
}
