/** Headings in degrees and the remainder operator that plotter.ts uses to keep them
    near [0, 360). JavaScript's `%` truncates toward zero: the result takes the sign of
    the dividend. Dafny's own `%` is Euclidean, so the operator is written out here. */
module Angles {

  /** One full turn, the divisor of the remainder in `turn`. */
  const FullTurn: real := 360.0

  /** `k` full turns, in degrees. */
  function Turns(k: int): (d: real)
    ensures k > 0 ==> d >= FullTurn
    ensures k < 0 ==> d <= -FullTurn
    ensures k == 0 <==> d == 0.0
  {
    k as real * FullTurn
  }

  /** `a` and `b` denote the same heading: they differ by a whole number of turns. */
  ghost predicate SameHeading(a: real, b: real) {
    exists k: int :: a - b == Turns(k)
  }

  /** JavaScript's `x % 360.0` on (exact) numbers: `x - 360 * trunc(x / 360)`. */
  function JsRem360(x: real): (r: real)
    ensures -FullTurn < r < FullTurn
    ensures x >= 0.0 ==> r >= 0.0
    ensures x <= 0.0 ==> r <= 0.0
    ensures SameHeading(r, x)
    ensures -FullTurn < x < FullTurn ==> r == x
  {
    var q := if x >= 0.0 then (x / FullTurn).Floor else -((-x / FullTurn).Floor);
    var r := x - Turns(q);
    assert r - x == Turns(-q);
    r
  }

  lemma SameHeadingTransitive(a: real, b: real, c: real)
    requires SameHeading(a, b) && SameHeading(b, c)
    ensures SameHeading(a, c)
  {
    var k :| a - b == Turns(k);
    var m :| b - c == Turns(m);
    assert a - c == Turns(k + m);
  }

  /** Adding the same amount to two equivalent headings keeps them equivalent. */
  lemma SameHeadingShift(a: real, b: real, d: real)
    requires SameHeading(a, b)
    ensures SameHeading(a + d, b + d)
  {
  }

  /** A full turn gives the same heading. */
  lemma SameHeadingFullTurn(a: real)
    ensures SameHeading(a + FullTurn, a)
  {
    assert a + FullTurn - a == Turns(1);
  }

  /** Two equivalent headings less than one turn apart are equal; in particular each
      heading has exactly one representative in [0, 360). */
  lemma SameHeadingUnique(a: real, b: real)
    requires SameHeading(a, b)
    requires -FullTurn < a - b < FullTurn
    ensures a == b
  {
  }
}
