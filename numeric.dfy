/**
 * Swift's conversions of a (finite) `Double` that round toward zero: the
 * integer initialiser `Int(_:)` and `truncatingRemainder(dividingBy:)`.
 * Dafny's `Floor` rounds toward negative infinity, so the negative side is
 * written out.
 */
module Numeric {

  /** `Int(x)` for a finite `x`: the integer part, rounded toward zero. */
  function Truncate(x: real): (i: int)
    ensures x >= 0.0 ==> i >= 0 && i as real <= x < i as real + 1.0
    ensures x < 0.0 ==> i <= 0 && i as real - 1.0 < x <= i as real
  {
    if x >= 0.0 then x.Floor else -((-x).Floor)
  }

  /** Truncation never moves a value away from zero, and a whole number is kept. */
  lemma TruncateWhole(n: int)
    ensures Truncate(n as real) == n
  {
  }

  /**
   * `x.truncatingRemainder(dividingBy: 360)`: `x - 360 * q` where `q` is
   * `x / 360` rounded toward zero, so the result has the sign of `x` and
   * differs from `x` by a whole number of turns.
   */
  function TruncatingRemainder360(x: real): (r: real)
    ensures x >= 0.0 ==> 0.0 <= r < 360.0
    ensures x < 0.0 ==> -360.0 < r <= 0.0
    ensures var turns := (x - r) / 360.0; turns == turns.Floor as real
  {
    var y := x / 360.0;
    var q := Truncate(y);
    var r := x - 360.0 * q as real;
    assert x == 360.0 * y;
    assert r == 360.0 * (y - q as real);
    assert (x - r) / 360.0 == q as real;
    WholeFloor(q);
    r
  }

  /** A whole number is its own floor. */
  lemma WholeFloor(n: int)
    ensures (n as real).Floor == n
  {
  }
}
