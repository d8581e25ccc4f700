/**
 * Integer arithmetic shared by both tracker generations: JavaScript's
 * `Math.round` of a quotient of non-negative integers, and the `Math.max`,
 * `Math.min` and `Math.abs` calls the trackers make on sizes and offsets.
 */
module Rounding {

  function Max(a: int, b: int): int { if a >= b then a else b }

  function Min(a: int, b: int): int { if a <= b then a else b }

  function Abs(a: int): nat { if a >= 0 then a else -a }

  /**
   * `Math.round(a / b)` for a non-negative numerator and a positive
   * denominator: the nearest integer to a/b, halves rounded up.
   */
  function RoundDiv(a: nat, b: nat): (r: nat)
    requires b > 0
    ensures b * (2 * r - 1) <= 2 * a < b * (2 * r + 1)
  {
    var q := (2 * a + b) / (2 * b);
    assert 2 * b * q <= 2 * a + b < 2 * b * q + 2 * b by {
      var m := (2 * a + b) % (2 * b);
      assert 2 * a + b == 2 * b * q + m && 0 <= m < 2 * b;
    }
    q
  }

  /** A quotient of a value that is at least its positive denominator rounds to at least 1. */
  lemma RoundDivAtLeastOne(a: nat, b: nat)
    requires b > 0 && a >= b
    ensures RoundDiv(a, b) >= 1
  {
  }
}
