/**
 * `intersectionDistance` of `viewfactor.gpu.IntersectionKernel`: the Moller-Trumbore
 * test the latest kernel runs for the ray from an emitter centroid against one
 * interconnect triangle, and the occlusion test `run()` applies to its result.
 */
module LatestIntersection {
  import opened KernelMath

  /**
   * The decision the kernel takes once the four dot products are known: no hit in the
   * parallel band; no hit when the UNSCALED `u` lies outside `[0, 1]`; no hit when the
   * scaled `v` is negative or `u + v` (unscaled `u`, scaled `v`) exceeds one; otherwise
   * the scaled distance. Zero stands for "no hit".
   */
  function Classify(det: real, u: real, v: real, t: real): real {
    if InParallelBand(det) then 0.0
    else
      var invDet := 1.0 / det;
      if u < 0.0 || u > 1.0 then 0.0
      else if v * invDet < 0.0 || u + v * invDet > 1.0 then 0.0
      else t * invDet
  }

  /**
   * `intersectionDistance` for the ray `ray` from `orig` against the triangle `v0,
   * v0 + e1, v0 + e2`: `det = e1 . (ray x e2)`, `u = (orig - v0) . (ray x e2)`,
   * `v = ray . ((orig - v0) x e1)` and `t = e2 . ((orig - v0) x e1)`.
   */
  function IntersectionDistance(orig: Vec3, ray: Vec3, v0: Vec3, e1: Vec3, e2: Vec3): real {
    var pvec := Cross(ray, e2);
    var tvec := EdgeFrom(orig, v0);
    var qvec := Cross(tvec, e1);
    Classify(Dot(e1, pvec), Dot(tvec, pvec), Dot(ray, qvec), Dot(e2, qvec))
  }

  /**
   * The cases in which no hit is reported before any division: a ray in the parallel
   * band, and an unscaled `u` outside `[0, 1]`.
   */
  lemma DistanceZeroCases(orig: Vec3, ray: Vec3, v0: Vec3, e1: Vec3, e2: Vec3)
    ensures InParallelBand(Dot(e1, Cross(ray, e2))) ==> IntersectionDistance(orig, ray, v0, e1, e2) == 0.0
    ensures var u := Dot(EdgeFrom(orig, v0), Cross(ray, e2));
      (u < 0.0 || u > 1.0) ==> IntersectionDistance(orig, ray, v0, e1, e2) == 0.0
  {
  }

  /**
   * What a non-zero distance `t` means: the point `orig + t ray` lies in the plane of
   * the triangle, at `v0 + a e1 + b e2` with `b >= 0`, where `a * det` (the unscaled
   * `u` the kernel tests) lies in `[0, 1]` and `a * det + b <= 1`.
   */
  lemma DistanceLiesOnRay(orig: Vec3, ray: Vec3, v0: Vec3, e1: Vec3, e2: Vec3)
    requires IntersectionDistance(orig, ray, v0, e1, e2) != 0.0
    ensures exists a: real, b: real ::
      && 0.0 <= a * Dot(e1, Cross(ray, e2)) <= 1.0 && 0.0 <= b && a * Dot(e1, Cross(ray, e2)) + b <= 1.0
      && Add(orig, Scale(IntersectionDistance(orig, ray, v0, e1, e2), ray)) == Add(Add(v0, Scale(a, e1)), Scale(b, e2))
  {
    var det := Dot(e1, Cross(ray, e2));
    var u := Dot(EdgeFrom(orig, v0), Cross(ray, e2));
    var a := u * (1.0 / det);
    var b := Dot(ray, Cross(EdgeFrom(orig, v0), e1)) * (1.0 / det);
    HitOnLine(orig, ray, v0, e1, e2);
    assert a * det == u;
  }

  /**
   * Where `det == 1` scaling changes nothing, and the kernel agrees with the root
   * kernel's `doesIntersect`: a non-zero distance is reported exactly when
   * `doesIntersect` holds and the distance itself is non-zero.
   */
  lemma AgreesWithDoesIntersectAtUnitDet(orig: Vec3, ray: Vec3, v0: Vec3, e1: Vec3, e2: Vec3)
    requires Dot(e1, Cross(ray, e2)) == 1.0
    ensures IntersectionDistance(orig, ray, v0, e1, e2) != 0.0
      <==> DoesIntersect(orig, ray, v0, e1, e2) && Dot(e2, Cross(EdgeFrom(orig, v0), e1)) != 0.0
  {
    var tvec := EdgeFrom(orig, v0);
    var u := Dot(tvec, Cross(ray, e2));
    assert u * (1.0 / 1.0) == u;
  }

  /** The occlusion test of `run()`: a non-zero distance no longer than the ray. */
  predicate Blocks(distance: real, rayMagnitude: real) {
    distance != 0.0 && distance <= rayMagnitude
  }

  // Two concrete rays. Each dot product is evaluated in a lemma of its own, then the
  // decision is taken on the resulting numbers.

  const UnitX := Vec3(1.0, 0.0, 0.0)
  const UnitY := Vec3(0.0, 1.0, 0.0)

  /** A ray from `(0.5, 0.5, -1)` along `(0, 0, 2)`, and the triangle `(0,0,0), (2,0,0), (0,2,0)`. */
  const CentredOrigin := Vec3(0.5, 0.5, -1.0)
  const CentredRay := Vec3(0.0, 0.0, 2.0)
  const WideX := Vec3(2.0, 0.0, 0.0)
  const WideY := Vec3(0.0, 2.0, 0.0)

  lemma CentredDet()
    ensures Dot(WideX, Cross(CentredRay, WideY)) == -8.0
  {
  }

  lemma CentredU()
    ensures Dot(EdgeFrom(CentredOrigin, Zero), Cross(CentredRay, WideY)) == -2.0
  {
  }

  lemma CentredPointOnTriangle(v0: Vec3, a: real, b: real, p: Vec3)
    requires v0 == Zero && a == 0.25 && b == 0.25 && p == Vec3(0.5, 0.5, 0.0)
    ensures Add(Add(v0, Scale(a, WideX)), Scale(b, WideY)) == p
  {
  }

  lemma CentredPointOnRay(t: real, p: Vec3)
    requires t == 0.5 && p == Vec3(0.5, 0.5, 0.0)
    ensures Add(CentredOrigin, Scale(t, CentredRay)) == p
  {
  }

  lemma CentredHitPoint()
    ensures Add(CentredOrigin, Scale(0.5, CentredRay)) == Add(Add(Zero, Scale(0.25, WideX)), Scale(0.25, WideY))
  {
    CentredPointOnTriangle(Zero, 0.25, 0.25, Vec3(0.5, 0.5, 0.0));
    CentredPointOnRay(0.5, Vec3(0.5, 0.5, 0.0));
  }

  lemma CentredV()
    ensures Dot(CentredRay, Cross(EdgeFrom(CentredOrigin, Zero), WideX)) == -2.0
  {
  }

  lemma CentredT()
    ensures Dot(WideY, Cross(EdgeFrom(CentredOrigin, Zero), WideX)) == -4.0
  {
  }

  lemma CentredClassified(det: real, u: real, v: real, t: real)
    requires det == -8.0 && u == -2.0 && v == -2.0 && t == -4.0
    ensures Classify(det, u, v, t) == 0.0
    ensures InsideTriangle(det, u, v)
  {
  }

  /**
   * The unscaled `u` loses real hits. The centred ray crosses the triangle at
   * `(0.5, 0.5, 0)`, a quarter along each edge and half-way along the ray, and
   * `doesIntersect` accepts it; yet `det == -8` makes the unscaled `u` equal `-2`, so
   * the kernel reports no hit.
   */
  lemma CentredHitMissed()
    ensures DoesIntersect(CentredOrigin, CentredRay, Zero, WideX, WideY)
    ensures Add(CentredOrigin, Scale(0.5, CentredRay)) == Add(Add(Zero, Scale(0.25, WideX)), Scale(0.25, WideY))
    ensures IntersectionDistance(CentredOrigin, CentredRay, Zero, WideX, WideY) == 0.0
  {
    CentredDet();
    CentredU();
    CentredV();
    CentredT();
    CentredHitPoint();
    var tvec := EdgeFrom(CentredOrigin, Zero);
    CentredClassified(Dot(WideX, Cross(CentredRay, WideY)), Dot(tvec, Cross(CentredRay, WideY)),
      Dot(CentredRay, Cross(tvec, WideX)), Dot(WideY, Cross(tvec, WideX)));
  }

  /** A ray from `(0.25, 0.25, -1)` along `(0, 0, -1)`, away from the unit triangle at `z == 0`. */
  const BehindOrigin := Vec3(0.25, 0.25, -1.0)
  const BehindRay := Vec3(0.0, 0.0, -1.0)

  lemma BehindDet()
    ensures Dot(UnitX, Cross(BehindRay, UnitY)) == 1.0
  {
  }

  lemma BehindU()
    ensures Dot(EdgeFrom(BehindOrigin, Zero), Cross(BehindRay, UnitY)) == 0.25
  {
  }

  lemma BehindV()
    ensures Dot(BehindRay, Cross(EdgeFrom(BehindOrigin, Zero), UnitX)) == 0.25
  {
  }

  lemma BehindT()
    ensures Dot(UnitY, Cross(EdgeFrom(BehindOrigin, Zero), UnitX)) == -1.0
  {
  }

  lemma BehindClassified(det: real, u: real, v: real, t: real)
    requires det == 1.0 && u == 0.25 && v == 0.25 && t == -1.0
    ensures Classify(det, u, v, t) == -1.0
  {
  }

  /** The kernel meets the unit triangle at distance `-1` along the ray, behind the emitter. */
  lemma BehindDistance()
    ensures IntersectionDistance(BehindOrigin, BehindRay, Zero, UnitX, UnitY) == -1.0
  {
    BehindDet();
    BehindU();
    BehindV();
    BehindT();
    var tvec := EdgeFrom(BehindOrigin, Zero);
    BehindClassified(Dot(UnitX, Cross(BehindRay, UnitY)), Dot(tvec, Cross(BehindRay, UnitY)),
      Dot(BehindRay, Cross(tvec, UnitX)), Dot(UnitY, Cross(tvec, UnitX)));
  }

  /**
   * A negative distance passes the occlusion test whatever the ray's length: with the
   * distance above, a triangle behind the emitter blocks the pair.
   */
  lemma NegativeDistanceBlocks(distance: real, rayMagnitude: real)
    requires distance < 0.0 && rayMagnitude >= 0.0
    ensures Blocks(distance, rayMagnitude)
  {
  }
}
