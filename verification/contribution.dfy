/**
 * The per-pair view-factor term both GPU kernels compute in `run()`: for an emitter
 * triangle and a receiver triangle, with `ray` from the emitter's centroid to the
 * receiver's,
 *
 *   |cos t1| * |cos t2| * A_emitter * A_receiver / (PI * |ray|^2)
 *
 * where `cos t1` and `cos t2` are the cosines between `ray` and each triangle's normal.
 */
module Contribution {
  import opened KernelMath

  function Abs(x: real): (r: real)
    ensures r >= 0.0 && (r == x || r == -x)
  {
    if x < 0.0 then -x else x
  }

  /** A dot product divided by the product of two magnitudes. */
  function CosineOf(m: MathLib, dot: real, normalMagnitude: real, rayMagnitude: real): real {
    Div(m, dot, normalMagnitude * rayMagnitude)
  }

  /** `cosThetaOne` or `cosThetaTwo` before the sign flip: `(n . ray) / (|n| |ray|)`. */
  function Cosine(m: MathLib, n: Vec3, ray: Vec3): real
    requires Lawful(m)
  {
    CosineOf(m, Dot(n, ray), Magnitude(m, n), Magnitude(m, ray))
  }

  /**
   * The final division of `run()`: `cos1 * cos2 * areaOne * areaTwo / (PI * r * r)`
   * for cosines already made non-negative and a ray of length `r`.
   */
  function Term(m: MathLib, cosOne: real, cosTwo: real, areaOne: real, areaTwo: real, r: real): real {
    Div(m, cosOne * cosTwo * areaOne * areaTwo, m.pi * r * r)
  }

  /** The body of `run()` once the ray is known not to be blocked. */
  function Contribution(m: MathLib, emitterNormal: Vec3, emitterCenter: Vec3, emitterArea: real,
                        receiverNormal: Vec3, receiverCenter: Vec3, receiverArea: real): real
    requires Lawful(m)
  {
    Term(m, Abs(Cosine(m, emitterNormal, EdgeFrom(receiverCenter, emitterCenter))),
      Abs(Cosine(m, receiverNormal, EdgeFrom(receiverCenter, emitterCenter))),
      emitterArea, receiverArea, Magnitude(m, EdgeFrom(receiverCenter, emitterCenter)))
  }

  /** The product of two positive reals is positive. */
  lemma PositiveProduct(a: real, b: real)
    requires a > 0.0 && b > 0.0
    ensures a * b > 0.0
  {
  }

  /** The product of two non-negative reals is non-negative. */
  lemma NonnegativeProduct(a: real, b: real)
    requires a >= 0.0 && b >= 0.0
    ensures a * b >= 0.0
  {
  }

  /** The product of two equal reals is non-negative, and positive unless they are zero. */
  lemma SelfProductNonnegative(a: real, b: real)
    requires a == b
    ensures a * b >= 0.0
  {
  }

  lemma SelfProductPositive(a: real, b: real)
    requires a == b && a != 0.0
    ensures a * b > 0.0
  {
  }

  /** Three non-negative reals, one of them positive, have a positive sum. */
  lemma PositiveSum(p: real, q: real, r: real)
    requires p >= 0.0 && q >= 0.0 && r >= 0.0 && (p > 0.0 || q > 0.0 || r > 0.0)
    ensures p + q + r > 0.0
  {
  }

  /**
   * A non-zero vector has a positive squared length. (`w` is `v` under a second name, so
   * that each product below pairs two distinct terms.)
   */
  lemma SquaredNormPositive(v: Vec3, w: Vec3)
    requires v == w && v != Zero
    ensures Dot(v, w) > 0.0
  {
    var p, q, r := v.x * w.x, v.y * w.y, v.z * w.z;
    SelfProductNonnegative(v.x, w.x);
    SelfProductNonnegative(v.y, w.y);
    SelfProductNonnegative(v.z, w.z);
    if v.x != 0.0 {
      SelfProductPositive(v.x, w.x);
    } else if v.y != 0.0 {
      SelfProductPositive(v.y, w.y);
    } else {
      SelfProductPositive(v.z, w.z);
    }
    PositiveSum(p, q, r);
  }

  /** Only the zero vector has zero magnitude. */
  lemma NonzeroHasMagnitude(m: MathLib, v: Vec3)
    requires Lawful(m) && v != Zero
    ensures Magnitude(m, v) > 0.0
  {
    SquaredNormPositive(v, v);
  }

  /** With non-negative cosines and areas and a ray of positive length, the term is non-negative. */
  lemma TermNonnegative(m: MathLib, cosOne: real, cosTwo: real, areaOne: real, areaTwo: real, r: real)
    requires Lawful(m)
    requires cosOne >= 0.0 && cosTwo >= 0.0 && areaOne >= 0.0 && areaTwo >= 0.0 && r > 0.0
    ensures Term(m, cosOne, cosTwo, areaOne, areaTwo, r) >= 0.0
  {
    NonnegativeProduct(cosOne, cosTwo);
    NonnegativeProduct(cosOne * cosTwo, areaOne);
    NonnegativeProduct(cosOne * cosTwo * areaOne, areaTwo);
    PositiveProduct(m.pi, r);
    PositiveProduct(m.pi * r, r);
  }

  /**
   * With non-zero normals and distinct centroids, none of the three divisions of `run()`
   * divides by zero: both cosine denominators `|n| |ray|` and the final `PI r r` are positive.
   */
  lemma DenominatorsPositive(m: MathLib, emitterNormal: Vec3, emitterCenter: Vec3,
                             receiverNormal: Vec3, receiverCenter: Vec3)
    requires Lawful(m)
    requires emitterNormal != Zero && receiverNormal != Zero
    requires emitterCenter != receiverCenter
    ensures var ray := EdgeFrom(receiverCenter, emitterCenter);
      && Magnitude(m, emitterNormal) * Magnitude(m, ray) > 0.0
      && Magnitude(m, receiverNormal) * Magnitude(m, ray) > 0.0
      && m.pi * Magnitude(m, ray) * Magnitude(m, ray) > 0.0
  {
    var ray := EdgeFrom(receiverCenter, emitterCenter);
    var r := Magnitude(m, ray);
    NonzeroHasMagnitude(m, ray);
    NonzeroHasMagnitude(m, emitterNormal);
    NonzeroHasMagnitude(m, receiverNormal);
    PositiveProduct(Magnitude(m, emitterNormal), r);
    PositiveProduct(Magnitude(m, receiverNormal), r);
    PositiveProduct(m.pi, r);
    PositiveProduct(m.pi * r, r);
  }

  /**
   * A zero normal makes the cosine the `0.0 / 0.0` of the library (NaN in Java), whatever
   * the ray: the case the non-zero-normal requirements below exclude.
   */
  lemma ZeroNormalCosine(m: MathLib, ray: Vec3)
    requires Lawful(m)
    ensures Cosine(m, Zero, ray) == m.overZero(0.0)
  {
    assert Magnitude(m, Zero) == 0.0;
  }

  /**
   * With non-zero normals, non-negative areas and distinct centroids, every division
   * has a positive denominator (`DenominatorsPositive`) and the term is never negative.
   */
  lemma ContributionNonnegative(m: MathLib, emitterNormal: Vec3, emitterCenter: Vec3, emitterArea: real,
                                receiverNormal: Vec3, receiverCenter: Vec3, receiverArea: real)
    requires Lawful(m)
    requires emitterNormal != Zero && receiverNormal != Zero
    requires emitterArea >= 0.0 && receiverArea >= 0.0
    requires emitterCenter != receiverCenter
    ensures Contribution(m, emitterNormal, emitterCenter, emitterArea, receiverNormal, receiverCenter, receiverArea) >= 0.0
  {
    var ray := EdgeFrom(receiverCenter, emitterCenter);
    NonzeroHasMagnitude(m, ray);
    TermNonnegative(m, Abs(Cosine(m, emitterNormal, ray)), Abs(Cosine(m, receiverNormal, ray)),
      emitterArea, receiverArea, Magnitude(m, ray));
  }

  /** A receiver without area receives nothing, whatever else the geometry is. */
  lemma ZeroAreaReceivesNothing(m: MathLib, emitterNormal: Vec3, emitterCenter: Vec3, emitterArea: real,
                                receiverNormal: Vec3, receiverCenter: Vec3)
    requires Lawful(m)
    requires emitterNormal != Zero && receiverNormal != Zero
    requires emitterCenter != receiverCenter
    ensures Contribution(m, emitterNormal, emitterCenter, emitterArea, receiverNormal, receiverCenter, 0.0) == 0.0
  {
    var ray := EdgeFrom(receiverCenter, emitterCenter);
    var r := Magnitude(m, ray);
    NonzeroHasMagnitude(m, ray);
    PositiveProduct(m.pi, r);
    PositiveProduct(m.pi * r, r);
  }

  /** Swapping the ends of an edge keeps its squared length and negates its dot product with `n`. */
  lemma SwappedEdge(n: Vec3, a: Vec3, b: Vec3)
    ensures Dot(EdgeFrom(a, b), EdgeFrom(a, b)) == Dot(EdgeFrom(b, a), EdgeFrom(b, a))
    ensures Dot(n, EdgeFrom(a, b)) == -Dot(n, EdgeFrom(b, a))
  {
  }

  /** The edge between two distinct points is not the zero vector. */
  lemma DistinctEnds(a: Vec3, b: Vec3)
    requires a != b
    ensures EdgeFrom(a, b) != Zero
  {
  }

  /** Vectors of the same squared length have the same magnitude. */
  lemma SameSquaredLength(m: MathLib, v: Vec3, w: Vec3)
    requires Lawful(m) && Dot(v, v) == Dot(w, w)
    ensures Magnitude(m, v) == Magnitude(m, w)
  {
  }

  /** Negating the dot product over positive magnitudes leaves the cosine's size unchanged. */
  lemma NegatedCosine(m: MathLib, a: real, b: real, p: real, q: real)
    requires b == -a && p > 0.0 && q > 0.0
    ensures Abs(CosineOf(m, b, p, q)) == Abs(CosineOf(m, a, p, q))
  {
    PositiveProduct(p, q);
    assert b / (p * q) == -(a / (p * q));
  }

  /**
   * A vector `w` with the squared length of `v` and the opposite dot product with `n`,
   * as the reversal of `v` has, makes a cosine of the same size with `n`.
   */
  lemma OppositeCosine(m: MathLib, n: Vec3, v: Vec3, w: Vec3)
    requires Lawful(m) && n != Zero && v != Zero
    requires Dot(n, w) == -Dot(n, v) && Dot(w, w) == Dot(v, v)
    ensures Abs(Cosine(m, n, w)) == Abs(Cosine(m, n, v))
  {
    SameSquaredLength(m, w, v);
    NonzeroHasMagnitude(m, n);
    NonzeroHasMagnitude(m, v);
    NegatedCosine(m, Dot(n, v), Dot(n, w), Magnitude(m, n), Magnitude(m, v));
  }

  /** The final division does not depend on the order of the two cosines and the two areas. */
  lemma TermSwap(m: MathLib, cosOne: real, cosTwo: real, areaOne: real, areaTwo: real, r: real)
    ensures Term(m, cosOne, cosTwo, areaOne, areaTwo, r) == Term(m, cosTwo, cosOne, areaTwo, areaOne, r)
  {
    assert cosOne * cosTwo * areaOne * areaTwo == cosTwo * cosOne * areaTwo * areaOne;
  }

  /**
   * Reciprocity: swapping the roles of emitter and receiver gives the same term, as
   * long as the centroids differ and the normals are non-zero (the `A1 F12 == A2 F21`
   * rule of view factors).
   */
  lemma Reciprocity(m: MathLib, n1: Vec3, c1: Vec3, a1: real, n2: Vec3, c2: Vec3, a2: real)
    requires Lawful(m)
    requires c1 != c2 && n1 != Zero && n2 != Zero
    ensures Contribution(m, n1, c1, a1, n2, c2, a2) == Contribution(m, n2, c2, a2, n1, c1, a1)
  {
    var ray, back := EdgeFrom(c2, c1), EdgeFrom(c1, c2);
    DistinctEnds(c2, c1);
    SwappedEdge(n1, c1, c2);
    SwappedEdge(n2, c1, c2);
    SameSquaredLength(m, back, ray);
    OppositeCosine(m, n1, ray, back);
    OppositeCosine(m, n2, ray, back);
    TermSwap(m, Abs(Cosine(m, n1, ray)), Abs(Cosine(m, n2, ray)), a1, a2, Magnitude(m, ray));
  }
}
