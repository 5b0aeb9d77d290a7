/**
 * Exact rounding for the averages the pages show. The source divides
 * floating-point numbers and rounds with `Math.round(x * 10) / 10` or
 * `toFixed(1)`; the model keeps an average as a whole number of tenths and
 * rounds the exact quotient half up.
 */
module Rounding {

  /** `Math.round(num / den)` for non-negative operands: the nearest integer, halves going up. */
  function RoundHalfUp(num: nat, den: nat): (r: nat)
    requires den > 0
    ensures 2 * den * r <= 2 * num + den < 2 * den * (r + 1)
  {
    (2 * num + den) / (2 * den)
  }

  /** Rounding a quotient that is already whole gives that whole number. */
  lemma RoundHalfUpExact(q: nat, den: nat)
    requires den > 0
    ensures RoundHalfUp(q * den, den) == q
  {
    var r := RoundHalfUp(q * den, den);
    assert 2 * den * r < 2 * den * (q + 1);
    MulCancelLess(2 * den, r, q + 1);
    assert 2 * den * q < 2 * den * (r + 1);
    MulCancelLess(2 * den, q, r + 1);
  }

  /** A quotient between two whole bounds rounds to a value between them. */
  lemma RoundHalfUpBetween(num: nat, den: nat, lo: nat, hi: nat)
    requires den > 0
    requires lo * den <= num <= hi * den
    ensures lo <= RoundHalfUp(num, den) <= hi
  {
    var r := RoundHalfUp(num, den);
    assert 2 * den * r < 2 * den * (hi + 1);
    MulCancelLess(2 * den, r, hi + 1);
    assert 2 * den * lo < 2 * den * (r + 1);
    MulCancelLess(2 * den, lo, r + 1);
  }

  /** A positive factor can be cancelled from a strict inequality. */
  lemma MulCancelLess(c: nat, a: nat, b: nat)
    requires c > 0 && c * a < c * b
    ensures a < b
  {
  }
}
