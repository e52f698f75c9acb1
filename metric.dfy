/** `calculateDistance(x0, y0, x1, y1)` is `Math.sqrt` of the squared differences. Dafny has
    no square root on reals, so the distance is a parameter of the operations that use it,
    and `IsMetric` states the facts about Euclidean distance that the proofs rely on. */
module Metric {

  type Distance = (real, real, real, real) -> real

  /** The point at fraction `f` from `a` to `b` on one axis, as the resampler computes it. */
  function Lerp(a: real, b: real, f: real): real { a + f * (b - a) }

  /** The triangle inequality for one detour through (x1, y1). It is named so that the
      quantifier in `IsMetric` is only used where a proof asks for it. */
  ghost predicate Detour(dist: Distance, x0: real, y0: real, x1: real, y1: real, x2: real, y2: real) {
    dist(x0, y0, x2, y2) <= dist(x0, y0, x1, y1) + dist(x1, y1, x2, y2)
  }

  ghost predicate IsMetric(dist: Distance) {
    && (forall x0, y0, x1, y1 :: dist(x0, y0, x1, y1) >= 0.0)
    && (forall x0, y0, x1, y1 :: dist(x0, y0, x1, y1) == dist(x1, y1, x0, y0))
    && (forall x0, y0, x1, y1 :: dist(x0, y0, x1, y1) == 0.0 <==> x0 == x1 && y0 == y1)
    && (forall x0, y0, x1, y1, f :: 0.0 <= f <= 1.0 ==>
          dist(x0, y0, Lerp(x0, x1, f), Lerp(y0, y1, f)) == f * dist(x0, y0, x1, y1))
    && (forall x0, y0, x1, y1, x2, y2 :: Detour(dist, x0, y0, x1, y1, x2, y2))
  }

  /** Going straight is never longer than going through a third point. */
  lemma Triangle(dist: Distance, x0: real, y0: real, x1: real, y1: real, x2: real, y2: real)
    requires IsMetric(dist)
    ensures dist(x0, y0, x2, y2) <= dist(x0, y0, x1, y1) + dist(x1, y1, x2, y2)
  {
    assert Detour(dist, x0, y0, x1, y1, x2, y2);
  }

  /** What is left of a segment after cutting it at fraction `f`. */
  lemma Remainder(dist: Distance, x0: real, y0: real, x1: real, y1: real, f: real)
    requires IsMetric(dist) && 0.0 <= f <= 1.0
    ensures dist(Lerp(x0, x1, f), Lerp(y0, y1, f), x1, y1) == (1.0 - f) * dist(x0, y0, x1, y1)
  {
    assert Lerp(x0, x1, f) == Lerp(x1, x0, 1.0 - f);
    assert Lerp(y0, y1, f) == Lerp(y1, y0, 1.0 - f);
    calc {
      dist(Lerp(x0, x1, f), Lerp(y0, y1, f), x1, y1);
      dist(x1, y1, Lerp(x1, x0, 1.0 - f), Lerp(y1, y0, 1.0 - f));
      (1.0 - f) * dist(x1, y1, x0, y0);
      (1.0 - f) * dist(x0, y0, x1, y1);
    }
  }
}
