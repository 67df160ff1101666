/** modulus (main.py:34-35) and angle_diff (main.py:38-39): wrapping reals onto
    a circle and measuring the shorter arc between two angles. */
module Angles {
  import opened Constants
  import opened RealArith

  /** Python's float remainder x % m: floored division, so the result carries
      the sign of m. Python raises ZeroDivisionError when m is zero. */
  function PyMod(x: real, m: real): (r: real)
    requires m != 0.0
    ensures 0.0 < m ==> 0.0 <= r < m
    ensures m < 0.0 ==> m < r <= 0.0
  {
    var q := x / m;
    var f := q.Floor as real;
    FloorFraction(q);
    DivisionUndone(x, m);
    ScaledFraction(m, q - f, x - m * f);
    x - m * f
  }

  lemma FloorFraction(q: real)
    ensures 0.0 <= q - q.Floor as real < 1.0
  {
  }

  lemma DivisionUndone(x: real, m: real)
    requires m != 0.0
    ensures m * (x / m) == x
  {
  }

  /** p = m * g, for a fraction g in [0, 1), lies between 0 (included) and m. */
  lemma ScaledFraction(m: real, g: real, p: real)
    requires 0.0 <= g < 1.0
    requires p == m * g
    ensures 0.0 < m ==> 0.0 <= p < m
    ensures m < 0.0 ==> m < p <= 0.0
  {
    if 0.0 < m {
      ScaleByFraction(m, g);
      MulMonotone(m, g, 1.0);
    } else if m < 0.0 {
      ScaleByFraction(-m, g);
      MulMonotone(-m, g, 1.0);
      assert m * g == -((-m) * g);
    }
  }

  /** modulus(x, m) = (x % m + m) % m: wraps x into [0, m) for positive m
      (and into (m, 0] for negative m). */
  function Modulus(x: real, m: real): (r: real)
    requires m != 0.0
    ensures 0.0 < m ==> 0.0 <= r < m
    ensures m < 0.0 ==> m < r <= 0.0
  {
    PyMod(PyMod(x, m) + m, m)
  }

  /** x % Tau is the only value in [0, Tau) that differs from x by whole turns. */
  lemma PyModUnique(x: real, k: int, r: real)
    requires 0.0 <= r < Tau
    requires x == r + k as real * Tau
    ensures PyMod(x, Tau) == r
  {
    assert x / Tau == r / Tau + k as real;
    assert (x / Tau).Floor == k;
  }

  /** For positive m, Python's floored % already lands in [0, m), so the
      outer `+ m) % m` of modulus changes nothing. */
  lemma ModulusIsPyMod(x: real)
    ensures Modulus(x, Tau) == PyMod(x, Tau)
  {
    PyModUnique(PyMod(x, Tau) + Tau, 1, PyMod(x, Tau));
  }

  /** x is its wrapped value plus a whole number of turns. */
  lemma ModulusDecompose(x: real)
    ensures x == Modulus(x, Tau) + (x / Tau).Floor as real * Tau
  {
    ModulusIsPyMod(x);
  }

  /** Characterisation: modulus(x, Tau) is the unique r in [0, Tau) such that
      x - r is a whole number of turns. */
  lemma ModulusUnique(x: real, k: int, r: real)
    requires 0.0 <= r < Tau
    requires x == r + k as real * Tau
    ensures Modulus(x, Tau) == r
  {
    ModulusIsPyMod(x);
    PyModUnique(x, k, r);
  }

  /** Adding whole turns leaves the wrapped value unchanged; with k = 1 this is
      modulus(x + tau, tau) == modulus(x, tau). */
  lemma ModulusShift(x: real, k: int)
    ensures Modulus(x + k as real * Tau, Tau) == Modulus(x, Tau)
  {
    ModulusDecompose(x);
    var f := (x / Tau).Floor;
    ModulusUnique(x + k as real * Tau, f + k, Modulus(x, Tau));
  }

  /** Angles already in [0, Tau) are left alone, so wrapping is idempotent. */
  lemma ModulusFixesRange(x: real)
    requires 0.0 <= x < Tau
    ensures Modulus(x, Tau) == x
  {
    ModulusUnique(x, 0, x);
  }

  /** Wrapping -x gives the complementary arc of wrapping x. */
  lemma ModulusNegate(x: real)
    ensures Modulus(-x, Tau) == if Modulus(x, Tau) == 0.0 then 0.0 else Tau - Modulus(x, Tau)
  {
    ModulusDecompose(x);
    var f := (x / Tau).Floor;
    var r := Modulus(x, Tau);
    if r == 0.0 {
      ModulusUnique(-x, -f, 0.0);
    } else {
      ModulusUnique(-x, -f - 1, Tau - r);
    }
  }

  function Min(x: real, y: real): real {
    if x <= y then x else y
  }

  /** angle_diff(a, b): the shorter of the two arcs between a and b on a circle
      of circumference Tau; it is 0 exactly when a and b are the same point. */
  function AngleDiff(a: real, b: real): (d: real)
    ensures 0.0 <= d <= Tau / 2.0
    ensures d == 0.0 <==> Modulus(a - b, Tau) == 0.0
  {
    ModulusNegate(a - b);
    assert b - a == -(a - b);
    Min(Modulus(a - b, Tau), Modulus(b - a, Tau))
  }

  /** The distance does not depend on the order of its arguments. */
  lemma AngleDiffSymmetric(a: real, b: real)
    ensures AngleDiff(a, b) == AngleDiff(b, a)
  {
  }

  /** An angle is at distance 0 from itself. */
  lemma AngleDiffSelf(a: real)
    ensures AngleDiff(a, a) == 0.0
  {
    ModulusFixesRange(0.0);
  }

  /** Adding whole turns to an angle leaves its distance to others unchanged. */
  lemma AngleDiffShift(a: real, b: real, k: int)
    ensures AngleDiff(a + k as real * Tau, b) == AngleDiff(a, b)
  {
    var d, turns := a - b, k as real * Tau;
    ModulusShift(d, k);
    ModulusShift(-d, -k);
    assert (a + turns) - b == d + turns;
    assert b - (a + turns) == -d + (-k) as real * Tau;
    assert b - a == -d;
  }

  /** Stepping x from a in direction dir (y is that signed step) and wrapping:
      seen from a in that direction, the result lies x (wrapped) ahead. */
  lemma SweepAhead(a: real, dir: int, x: real, y: real)
    requires dir == 1 || dir == -1
    requires y == dir as real * x
    ensures Modulus(dir as real * (Modulus(a + y, Tau) - a), Tau) == Modulus(x, Tau)
  {
    var s := a + y;
    ModulusDecompose(s);
    var f := (s / Tau).Floor;
    assert dir as real * (Modulus(s, Tau) - a) == x + (-dir * f) as real * Tau;
    ModulusShift(x, -dir * f);
  }

  /** An angle moved at `speed` for `dt` in direction dir and wrapped onto the
      circle: it ends speed * dt (wrapped) ahead of a in that direction. */
  function Swept(a: real, dir: int, speed: real, dt: real): (r: real)
    requires dir == 1 || dir == -1
    ensures 0.0 <= r < Tau
    ensures Modulus(dir as real * (r - a), Tau) == Modulus(speed * dt, Tau)
  {
    MulAssociative(dir as real, speed, dt);
    SweepAhead(a, dir, speed * dt, dir as real * speed * dt);
    Modulus(a + dir as real * speed * dt, Tau)
  }

  /** A point stepped x away from a, for x at most half a turn, is at distance
      exactly x from a. */
  lemma AngleDiffOfStep(a: real, dir: int, x: real)
    requires dir == 1 || dir == -1
    ensures 0.0 <= x <= Tau / 2.0 ==> AngleDiff(a, Modulus(a + dir as real * x, Tau)) == x
  {
    if 0.0 <= x <= Tau / 2.0 {
      var t := Modulus(a + dir as real * x, Tau);
      SweepAhead(a, dir, x, dir as real * x);
      ModulusFixesRange(x);
      var ahead, behind := if dir == 1 then t - a else a - t, if dir == 1 then a - t else t - a;
      assert dir as real * (t - a) == ahead;
      assert Modulus(ahead, Tau) == x;
      assert behind == -ahead;
      ModulusNegate(ahead);
    }
  }

  /** a stepped x in direction dir and wrapped onto the circle: it lies x
      (wrapped) ahead of a in that direction, and for a step of at most half a
      turn it is at distance exactly x from a. */
  function Stepped(a: real, dir: int, x: real): (r: real)
    requires dir == 1 || dir == -1
    ensures 0.0 <= r < Tau
    ensures Modulus(dir as real * (r - a), Tau) == Modulus(x, Tau)
    ensures 0.0 <= x <= Tau / 2.0 ==> AngleDiff(a, r) == x
  {
    SweepAhead(a, dir, x, dir as real * x);
    AngleDiffOfStep(a, dir, x);
    Modulus(a + dir as real * x, Tau)
  }
}
