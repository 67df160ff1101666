/** Facts about multiplying reals that the solver does not find on its own.
    Each is proved in a context small enough for it. */
module RealArith {
  /** Multiplying by a non-negative (positive) factor keeps (strict) order. */
  lemma MulMonotone(c: real, y: real, z: real)
    ensures 0.0 <= c && y <= z ==> c * y <= c * z
    ensures 0.0 < c && y < z ==> c * y < c * z
  {
    assert c * z - c * y == c * (z - y);
  }

  /** A product with a positive factor has the sign of the other factor. */
  lemma MulSign(x: real, y: real)
    ensures 0.0 < x && 0.0 < y ==> 0.0 < x * y
    ensures 0.0 < x && y < 0.0 ==> x * y < 0.0
  {
  }

  /** Scaling a non-negative c by a fraction t in [0, 1] lands in [0, c]. */
  lemma ScaleByFraction(c: real, t: real)
    requires 0.0 <= c && 0.0 <= t <= 1.0
    ensures 0.0 <= c * t <= c
  {
    MulMonotone(c, 0.0, t);
    MulMonotone(c, t, 1.0);
  }

  /** Grouping of a triple product. */
  lemma MulAssociative(x: real, y: real, z: real)
    ensures x * y * z == x * (y * z)
  {
  }
}
