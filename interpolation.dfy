/** lerp (main.py:26-27) and the random.uniform oracle built on it. */
module Interpolation {
  import opened RealArith

  /** lerp(a, b, t): the point a fraction t of the way from a to b. */
  function Lerp(a: real, b: real, t: real): real {
    a + (b - a) * t
  }

  /** lerp starts at a and ends at b. */
  lemma LerpEnds(a: real, b: real)
    ensures Lerp(a, b, 0.0) == a
    ensures Lerp(a, b, 1.0) == b
  {
  }

  /** Running lerp backwards: from b to a by the complementary fraction. */
  lemma LerpReversed(a: real, b: real, t: real)
    ensures Lerp(a, b, t) == Lerp(b, a, 1.0 - t)
  {
  }

  lemma LerpBetweenAscending(a: real, b: real, t: real)
    requires 0.0 <= t <= 1.0 && a <= b
    ensures a <= Lerp(a, b, t) <= b
  {
    ScaleByFraction(b - a, t);
    assert (b - a) * t <= b - a;
    assert Lerp(a, b, t) == a + (b - a) * t;
    assert a + (b - a) * t <= a + (b - a);
  }

  /** For t in [0, 1], lerp stays between its two ends. */
  lemma LerpBetween(a: real, b: real, t: real)
    requires 0.0 <= t <= 1.0
    ensures a <= b ==> a <= Lerp(a, b, t) <= b
    ensures b <= a ==> b <= Lerp(a, b, t) <= a
  {
    if a <= b {
      LerpBetweenAscending(a, b, t);
    } else {
      LerpReversed(a, b, t);
      LerpBetweenAscending(b, a, 1.0 - t);
    }
  }

  /** How far lerp moves when t moves from t to u. */
  lemma LerpDifference(a: real, b: real, t: real, u: real)
    ensures Lerp(a, b, u) - Lerp(a, b, t) == (u - t) * (b - a)
  {
  }

  /** Moving t forward moves lerp strictly towards b. */
  lemma LerpStrictlyMonotone(a: real, b: real, t: real, u: real)
    requires t < u
    ensures a < b ==> Lerp(a, b, t) < Lerp(a, b, u)
    ensures b < a ==> Lerp(a, b, u) < Lerp(a, b, t)
  {
    LerpDifference(a, b, t, u);
    MulSign(u - t, b - a);
  }

  /** A value random.random() can return: a real in [0, 1). */
  predicate IsSample(s: real) {
    0.0 <= s < 1.0
  }

  /** random.uniform(lo, hi), which CPython computes as lo + (hi - lo) * random();
      `sample` stands for the value random() returned. */
  function Uniform(lo: real, hi: real, sample: real): (r: real)
    requires IsSample(sample)
    ensures lo <= hi ==> lo <= r <= hi
    ensures lo < hi ==> r < hi
  {
    LerpBetween(lo, hi, sample);
    LerpEnds(lo, hi);
    LerpStrictlyMonotone(lo, hi, sample, 1.0);
    Lerp(lo, hi, sample)
  }
}
