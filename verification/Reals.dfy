/** Facts about real numbers that the solver is not left to find by itself. */
module Reals {

  lemma ProductNonNegative(x: real, y: real)
    requires 0.0 <= x && 0.0 <= y
    ensures 0.0 <= x * y
  {
  }

  lemma ProductPositive(x: real, y: real)
    requires 0.0 < x && 0.0 < y
    ensures 0.0 < x * y
  {
  }

  lemma Cancel(a: real, b: real)
    requires b > 0.0
    ensures (a / b) * b == a
  {
  }

  lemma Scale(q: real, c: real, t: real)
    requires t > 0.0
    ensures q >= c <==> q * t >= c * t
  {
    assert (q - c) * t == q * t - c * t;
    if q >= c {
      ProductNonNegative(q - c, t);
    } else {
      assert (c - q) * t == c * t - q * t;
      ProductPositive(c - q, t);
    }
  }

  /** A share of a whole, against a bound. */
  lemma ShareAtLeast(part: real, whole: real, bound: real)
    requires whole > 0.0
    ensures part / whole >= bound <==> part >= bound * whole
  {
    Cancel(part, whole);
    Scale(part / whole, bound, whole);
  }

  lemma ShareAtMost(part: real, whole: real, bound: real)
    requires whole > 0.0
    ensures part / whole <= bound <==> part <= bound * whole
  {
    Cancel(part, whole);
    Scale(bound, part / whole, whole);
  }
}
