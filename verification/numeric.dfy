/** Real-number helpers standing in for numpy and Python float arithmetic.

    Floats are modelled as exact reals, so rounding is not modelled; NaN is a
    separate cell constructor (see Grids), never a real.
 */
module Numeric {

  function Abs(x: real): (r: real)
    ensures r >= 0.0
    ensures r == x || r == -x
  {
    if x >= 0.0 then x else -x
  }

  /** numpy's default relative tolerance. */
  const RelTol: real := 0.00001

  /** numpy's default absolute tolerance, used by the quintile-label check. */
  const LabelTol: real := 0.00000001

  /** The absolute tolerance the probability-sum check passes to `allclose`. */
  const SumTol: real := 0.001

  /** One element of `np.allclose(a, b, atol)`: note that the relative part scales
      with the SECOND argument only, so the test is not symmetric. */
  predicate Close(a: real, b: real, atol: real) {
    Abs(a - b) <= atol + RelTol * Abs(b)
  }

  /** `d` is a whole number of turns of 360 degrees. */
  predicate WholeTurns(d: real) {
    d == 360.0 * (d / 360.0).Floor as real
  }

  /** Python's `x % 360.0` on floats: the remainder takes the sign of the divisor,
      so it always lies in [0, 360). */
  function Mod360(x: real): (r: real)
    ensures 0.0 <= r < 360.0
    ensures 0.0 <= x < 360.0 ==> r == x
    ensures WholeTurns(x - r)
  {
    var k := (x / 360.0).Floor;
    assert x == (x - 360.0 * k as real) + 360.0 * k as real;
    x - 360.0 * k as real
  }

  /** Python's `int(f)` on a finite float: truncation toward zero. */
  function Trunc(f: real): (i: int)
    ensures Abs(i as real) <= Abs(f) < Abs(i as real) + 1.0
    ensures i == 0 || (i > 0 <==> f > 0.0)
  {
    if f >= 0.0 then f.Floor else -((-f).Floor)
  }

  /** The sum check at 1.0 accepts exactly the sums within 0.00101 of 1. */
  lemma SumToleranceBand(s: real)
    ensures Close(s, 1.0, SumTol) <==> 0.99899 <= s <= 1.00101
  {
  }
}
