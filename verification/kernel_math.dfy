/**
 * The vector arithmetic of the root `IntersectionKernel` (its "math-only" methods):
 * dot and cross products, edges, centroids, magnitudes and the Moller-Trumbore
 * ray/triangle test `doesIntersect`.
 *
 * Doubles are modelled as reals. `Math.sqrt`, `Math.sin`, `Math.acos`, the constant
 * PI and the non-finite result of a division by zero are not computable here; they
 * are supplied as a `MathLib` value of which only sign facts are assumed (`Lawful`).
 */
module KernelMath {

  datatype Vec3 = Vec3(x: real, y: real, z: real)

  /** A facet's three vertices A, B, C (a freshly filled `double[3][3]`). */
  datatype Triangle = Triangle(a: Vec3, b: Vec3, c: Vec3)

  /**
   * The floating-point library: `sqrt`, `sin`, `acos`, `PI`, and `overZero(x)`, the
   * value standing for `x / 0.0` (an infinity or NaN in IEEE arithmetic).
   */
  datatype MathLib = MathLib(
    sqrt: real -> real,
    sin: real -> real,
    acos: real -> real,
    pi: real,
    overZero: real -> real)

  /** The only facts about the library the proofs rely on. */
  ghost predicate Lawful(m: MathLib) {
    && m.pi > 0.0
    && m.sqrt(0.0) == 0.0
    && forall x :: x > 0.0 ==> m.sqrt(x) > 0.0
  }

  /** Java's `a / b` on doubles. */
  function Div(m: MathLib, a: real, b: real): real {
    if b == 0.0 then m.overZero(a) else a / b
  }

  function Add(a: Vec3, b: Vec3): Vec3 {
    Vec3(a.x + b.x, a.y + b.y, a.z + b.z)
  }

  function Scale(k: real, a: Vec3): Vec3 {
    Vec3(k * a.x, k * a.y, k * a.z)
  }

  const Zero := Vec3(0.0, 0.0, 0.0)

  /** `dotProduct(a, b)`. */
  function Dot(a: Vec3, b: Vec3): real {
    a.x * b.x + a.y * b.y + a.z * b.z
  }

  /** `crossProduct(a, b)`. */
  function Cross(a: Vec3, b: Vec3): Vec3 {
    Vec3(a.y * b.z - a.z * b.y, a.z * b.x - a.x * b.z, a.x * b.y - a.y * b.x)
  }

  /** The cross product is orthogonal to both its arguments. */
  lemma CrossOrthogonal(a: Vec3, b: Vec3)
    ensures Dot(Cross(a, b), a) == 0.0 && Dot(Cross(a, b), b) == 0.0
  {
  }

  /** `edgeFrom(a, b)`: the vector from `b` to `a`. */
  function EdgeFrom(a: Vec3, b: Vec3): (r: Vec3)
    ensures Add(b, r) == a
  {
    Vec3(a.x - b.x, a.y - b.y, a.z - b.z)
  }

  /** `centerOf(triangle)`: the centroid, the point three times which is the vertex sum. */
  function CenterOf(t: Triangle): (r: Vec3)
    ensures Scale(3.0, r) == Add(Add(t.a, t.b), t.c)
  {
    Vec3((t.a.x + t.b.x + t.c.x) / 3.0, (t.a.y + t.b.y + t.c.y) / 3.0, (t.a.z + t.b.z + t.c.z) / 3.0)
  }

  /**
   * `magnitude(v)`: non-negative, and zero exactly when the squared norm `v . v` is zero.
   */
  function Magnitude(m: MathLib, v: Vec3): (r: real)
    requires Lawful(m)
    ensures r >= 0.0
    ensures r == 0.0 <==> Dot(v, v) == 0.0
  {
    SquaredNormNonnegative(v);
    m.sqrt(Dot(v, v))
  }

  lemma SquareNonnegative(r: real)
    ensures r * r >= 0.0
  {
    if r < 0.0 {
      assert r * r == (-r) * (-r);
    }
  }

  lemma SumOfSquaresNonnegative(a: real, b: real, c: real)
    ensures a * a + b * b + c * c >= 0.0
  {
    SquareNonnegative(a);
    SquareNonnegative(b);
    SquareNonnegative(c);
  }

  lemma SquaredNormNonnegative(v: Vec3)
    ensures Dot(v, v) >= 0.0
  {
    SumOfSquaresNonnegative(v.x, v.y, v.z);
  }

  /** `angleBetween(a, b)`: `acos` of the normalised dot product. */
  function AngleBetween(m: MathLib, a: Vec3, b: Vec3): real
    requires Lawful(m)
  {
    m.acos(Div(m, Dot(a, b), Magnitude(m, a) * Magnitude(m, b)))
  }

  /** The root kernel's `areaOf`: half the product of two edge lengths and the sine between them. */
  function AngularAreaOf(m: MathLib, t: Triangle): real
    requires Lawful(m)
  {
    var ab := EdgeFrom(t.b, t.a);
    var ac := EdgeFrom(t.c, t.a);
    0.5 * Magnitude(m, ab) * Magnitude(m, ac) * m.sin(AngleBetween(m, ab, ac))
  }

  /** The parallel-ray band of every Moller-Trumbore variant here: `-1e-8 < det < 1e-8`. */
  predicate InParallelBand(det: real) {
    det < 0.00000001 && det > -0.00000001
  }

  /**
   * The decision of `doesIntersect` once `det`, the unscaled `u` and the unscaled `v`
   * are known: no hit in the parallel band; otherwise both coordinates are scaled by
   * `1 / det` and must satisfy `u >= 0`, `u <= 1`, `v >= 0` and `u + v <= 1`.
   */
  predicate InsideTriangle(det: real, u: real, v: real) {
    if InParallelBand(det) then false
    else
      var invDet := 1.0 / det;
      var su := u * invDet;
      if su < 0.0 || su > 1.0 then false
      else
        var sv := v * invDet;
        !(sv < 0.0) && !(su + sv > 1.0)
  }

  /**
   * `doesIntersect(orig, dir, triangle, edges)`, with `edges == [e1, e2]`: the classic
   * Moller-Trumbore test with `u = (orig - v0) . (dir x e2)` and
   * `v = dir . ((orig - v0) x e1)`, both scaled by `1 / det`, and no bound on the
   * distance along the ray.
   */
  predicate DoesIntersect(orig: Vec3, dir: Vec3, v0: Vec3, e1: Vec3, e2: Vec3) {
    var pvec := Cross(dir, e2);
    var tvec := EdgeFrom(orig, v0);
    InsideTriangle(Dot(e1, pvec), Dot(tvec, pvec), Dot(dir, Cross(tvec, e1)))
  }

  /**
   * The algebra behind Moller-Trumbore (Cramer's rule), one axis at a time: with
   * `det = e1 . (dir x e2)` and `t = orig - v0`,
   * `det * t == (t . (dir x e2)) e1 + (dir . (t x e1)) e2 - (e2 . (t x e1)) dir`.
   */
  lemma CramerX(t: Vec3, dir: Vec3, e1: Vec3, e2: Vec3)
    ensures Dot(e1, Cross(dir, e2)) * t.x
      == Dot(t, Cross(dir, e2)) * e1.x + Dot(dir, Cross(t, e1)) * e2.x - Dot(e2, Cross(t, e1)) * dir.x
  {
  }
  lemma CramerY(t: Vec3, dir: Vec3, e1: Vec3, e2: Vec3)
    ensures Dot(e1, Cross(dir, e2)) * t.y
      == Dot(t, Cross(dir, e2)) * e1.y + Dot(dir, Cross(t, e1)) * e2.y - Dot(e2, Cross(t, e1)) * dir.y
  {
  }
  lemma CramerZ(t: Vec3, dir: Vec3, e1: Vec3, e2: Vec3)
    ensures Dot(e1, Cross(dir, e2)) * t.z
      == Dot(t, Cross(dir, e2)) * e1.z + Dot(dir, Cross(t, e1)) * e2.z - Dot(e2, Cross(t, e1)) * dir.z
  {
  }

  /**
   * One coordinate of the hit: from `det * (o - p) == pu a + pv b - pt d` and `det != 0`,
   * the point `p + u a + v b` equals `o + t d` with `u, v, t` the scaled coordinates.
   */
  lemma Coordinate(det: real, o: real, p: real, c: real, d: real, a: real, b: real, pu: real, pv: real, pt: real)
    requires det != 0.0 && c == o - p
    requires det * c == pu * a + pv * b - pt * d
    ensures o + (pt * (1.0 / det)) * d == p + (pu * (1.0 / det)) * a + (pv * (1.0 / det)) * b
  {
    var k := 1.0 / det;
    assert det * k == 1.0;
    calc {
      c;
    ==
      (det * k) * c;
    ==
      k * (det * c);
    ==
      k * (pu * a + pv * b - pt * d);
    ==
      (pu * k) * a + (pv * k) * b - (pt * k) * d;
    }
  }

  /**
   * The three coordinates together: if `det * (orig - v0) == pu e1 + pv e2 - pt dir`
   * holds on every axis and `det != 0`, scaling by `1 / det` puts the point of the
   * triangle's plane on the line.
   */
  lemma Assemble(orig: Vec3, dir: Vec3, v0: Vec3, e1: Vec3, e2: Vec3, tvec: Vec3,
                 det: real, pu: real, pv: real, pt: real)
    requires det != 0.0 && tvec == EdgeFrom(orig, v0)
    requires det * tvec.x == pu * e1.x + pv * e2.x - pt * dir.x
    requires det * tvec.y == pu * e1.y + pv * e2.y - pt * dir.y
    requires det * tvec.z == pu * e1.z + pv * e2.z - pt * dir.z
    ensures Add(orig, Scale(pt * (1.0 / det), dir))
      == Add(Add(v0, Scale(pu * (1.0 / det), e1)), Scale(pv * (1.0 / det), e2))
  {
    Coordinate(det, orig.x, v0.x, tvec.x, dir.x, e1.x, e2.x, pu, pv, pt);
    Coordinate(det, orig.y, v0.y, tvec.y, dir.y, e1.y, e2.y, pu, pv, pt);
    Coordinate(det, orig.z, v0.z, tvec.z, dir.z, e1.z, e2.z, pu, pv, pt);
  }

  /**
   * Where `det = e1 . (dir x e2)` is not zero, the Moller-Trumbore coordinates
   * `u = (orig - v0) . (dir x e2)`, `v = dir . ((orig - v0) x e1)` and
   * `t = e2 . ((orig - v0) x e1)`, each scaled by `1 / det`, place the point
   * `v0 + u e1 + v e2` on the line `orig + t dir`.
   */
  lemma HitOnLine(orig: Vec3, dir: Vec3, v0: Vec3, e1: Vec3, e2: Vec3)
    requires Dot(e1, Cross(dir, e2)) != 0.0
    ensures Add(orig, Scale(Dot(e2, Cross(EdgeFrom(orig, v0), e1)) * (1.0 / Dot(e1, Cross(dir, e2))), dir))
      == Add(Add(v0, Scale(Dot(EdgeFrom(orig, v0), Cross(dir, e2)) * (1.0 / Dot(e1, Cross(dir, e2))), e1)),
             Scale(Dot(dir, Cross(EdgeFrom(orig, v0), e1)) * (1.0 / Dot(e1, Cross(dir, e2))), e2))
  {
    CramerX(EdgeFrom(orig, v0), dir, e1, e2);
    CramerY(EdgeFrom(orig, v0), dir, e1, e2);
    CramerZ(EdgeFrom(orig, v0), dir, e1, e2);
    Assemble(orig, dir, v0, e1, e2, EdgeFrom(orig, v0), Dot(e1, Cross(dir, e2)),
      Dot(EdgeFrom(orig, v0), Cross(dir, e2)), Dot(dir, Cross(EdgeFrom(orig, v0), e1)),
      Dot(e2, Cross(EdgeFrom(orig, v0), e1)));
  }

  /**
   * A hit reported by `doesIntersect` is a real one: the point `v0 + u e1 + v e2`, which
   * lies in the triangle (u, v >= 0, u + v <= 1), is on the line `orig + t dir`.
   */
  lemma DoesIntersectSound(orig: Vec3, dir: Vec3, v0: Vec3, e1: Vec3, e2: Vec3)
    requires DoesIntersect(orig, dir, v0, e1, e2)
    ensures exists u: real, v: real, t: real ::
      && 0.0 <= u && 0.0 <= v && u + v <= 1.0
      && Add(orig, Scale(t, dir)) == Add(Add(v0, Scale(u, e1)), Scale(v, e2))
  {
    var tvec := EdgeFrom(orig, v0);
    var det := Dot(e1, Cross(dir, e2));
    var u := Dot(tvec, Cross(dir, e2)) * (1.0 / det);
    var v := Dot(dir, Cross(tvec, e1)) * (1.0 / det);
    var t := Dot(e2, Cross(tvec, e1)) * (1.0 / det);
    HitOnLine(orig, dir, v0, e1, e2);
  }

  /** A ray inside the parallel band never intersects, whatever `u` and `v` would be. */
  lemma ParallelRayMisses(orig: Vec3, dir: Vec3, v0: Vec3, e1: Vec3, e2: Vec3)
    requires InParallelBand(Dot(e1, Cross(dir, e2)))
    ensures !DoesIntersect(orig, dir, v0, e1, e2)
  {
  }

  /**
   * The unscaled `u` of a point `v0 + a e1 + b e2` on the line: with
   * `orig - v0 == a e1 + b e2 - t dir` (one real per axis),
   * `(orig - v0) . (dir x e2) == a * det`.
   */
  lemma UnscaledU(tx: real, ty: real, tz: real, dir: Vec3, e1: Vec3, e2: Vec3, a: real, b: real, t: real)
    requires tx == a * e1.x + b * e2.x - t * dir.x
    requires ty == a * e1.y + b * e2.y - t * dir.y
    requires tz == a * e1.z + b * e2.z - t * dir.z
    ensures Dot(Vec3(tx, ty, tz), Cross(dir, e2)) == a * Dot(e1, Cross(dir, e2))
  {
  }

  /** Likewise the unscaled `v`: `dir . ((orig - v0) x e1) == b * det`. */
  lemma UnscaledV(tx: real, ty: real, tz: real, dir: Vec3, e1: Vec3, e2: Vec3, a: real, b: real, t: real)
    requires tx == a * e1.x + b * e2.x - t * dir.x
    requires ty == a * e1.y + b * e2.y - t * dir.y
    requires tz == a * e1.z + b * e2.z - t * dir.z
    ensures Dot(dir, Cross(Vec3(tx, ty, tz), e1)) == b * Dot(e1, Cross(dir, e2))
  {
    var c := Cross(e1, dir);
    Cyclic(dir, Vec3(tx, ty, tz), e1);
    DotLinear(tx, ty, tz, a, b, t, e1, e2, dir, c);
    CrossOrthogonal(e1, dir);
    Cyclic(e2, e1, dir);
  }

  /** The scalar triple product is invariant under cyclic rotation. */
  lemma Cyclic(p: Vec3, q: Vec3, r: Vec3)
    ensures Dot(p, Cross(q, r)) == Dot(q, Cross(r, p))
  {
  }

  /** The dot product is linear in its first argument, written one real per axis. */
  lemma DotLinear(tx: real, ty: real, tz: real, a: real, b: real, t: real, p: Vec3, q: Vec3, d: Vec3, c: Vec3)
    requires tx == a * p.x + b * q.x - t * d.x
    requires ty == a * p.y + b * q.y - t * d.y
    requires tz == a * p.z + b * q.z - t * d.z
    ensures Dot(Vec3(tx, ty, tz), c) == a * Dot(p, c) + b * Dot(q, c) - t * Dot(d, c)
  {
  }

  /** A coordinate unscaled by `det` (`u == k * det`), scaled by `1 / det`, gives back `k`. */
  lemma Unscale(u: real, k: real, det: real)
    requires det != 0.0 && u == k * det
    ensures u * (1.0 / det) == k
  {
    assert u * (1.0 / det) == k * (det * (1.0 / det));
  }

  /** A point with triangle coordinates `a, b`, unscaled by `det`, passes the inside test. */
  lemma InsideAt(det: real, a: real, b: real, u: real, v: real)
    requires !InParallelBand(det)
    requires 0.0 <= a && 0.0 <= b && a + b <= 1.0
    requires u == a * det && v == b * det
    ensures InsideTriangle(det, u, v)
  {
    Unscale(u, a, det);
    Unscale(v, b, det);
  }

  /**
   * The converse of `DoesIntersectSound`: outside the parallel band, every point
   * `v0 + a e1 + b e2` of the closed triangle (a, b >= 0, a + b <= 1) that lies on the
   * line `orig + t dir` makes `doesIntersect` report a hit, whatever the sign of `t`.
   */
  lemma DoesIntersectComplete(orig: Vec3, dir: Vec3, v0: Vec3, e1: Vec3, e2: Vec3, a: real, b: real, t: real)
    requires !InParallelBand(Dot(e1, Cross(dir, e2)))
    requires 0.0 <= a && 0.0 <= b && a + b <= 1.0
    requires Add(orig, Scale(t, dir)) == Add(Add(v0, Scale(a, e1)), Scale(b, e2))
    ensures DoesIntersect(orig, dir, v0, e1, e2)
  {
    var det := Dot(e1, Cross(dir, e2));
    var tvec := EdgeFrom(orig, v0);
    UnscaledU(tvec.x, tvec.y, tvec.z, dir, e1, e2, a, b, t);
    UnscaledV(tvec.x, tvec.y, tvec.z, dir, e1, e2, a, b, t);
    InsideAt(det, a, b, Dot(tvec, Cross(dir, e2)), Dot(dir, Cross(tvec, e1)));
  }

  /**
   * `doesIntersect` decides, outside the parallel band, exactly whether the line
   * `orig + t dir` meets the closed triangle `v0, v0 + e1, v0 + e2`.
   */
  lemma DoesIntersectExactly(orig: Vec3, dir: Vec3, v0: Vec3, e1: Vec3, e2: Vec3)
    requires !InParallelBand(Dot(e1, Cross(dir, e2)))
    ensures DoesIntersect(orig, dir, v0, e1, e2) <==>
      exists u: real, v: real, t: real ::
        && 0.0 <= u && 0.0 <= v && u + v <= 1.0
        && Add(orig, Scale(t, dir)) == Add(Add(v0, Scale(u, e1)), Scale(v, e2))
  {
    if DoesIntersect(orig, dir, v0, e1, e2) {
      DoesIntersectSound(orig, dir, v0, e1, e2);
    }
    if exists u: real, v: real, t: real ::
        && 0.0 <= u && 0.0 <= v && u + v <= 1.0
        && Add(orig, Scale(t, dir)) == Add(Add(v0, Scale(u, e1)), Scale(v, e2))
    {
      var u: real, v: real, t: real :|
        && 0.0 <= u && 0.0 <= v && u + v <= 1.0
        && Add(orig, Scale(t, dir)) == Add(Add(v0, Scale(u, e1)), Scale(v, e2));
      DoesIntersectComplete(orig, dir, v0, e1, e2, u, v, t);
    }
  }

  // The cases of KernelMathTest, at their exact real-arithmetic values.

  lemma EdgeFromExample()
    ensures EdgeFrom(Vec3(2.3, 9.0, 4.0), Vec3(4.3, 2.0, -33.0)) == Vec3(-2.0, 7.0, 37.0)
  {
  }

  lemma CenterOfExample()
    ensures CenterOf(Triangle(Vec3(1.0, 2.0, 3.0), Vec3(4.0, 2.0, 3.2), Vec3(-2.0, 9.32, 8.0)))
      == Vec3(1.0, 4.44, 14.2 / 3.0)
  {
  }

  lemma CrossProductExample()
    ensures Cross(Vec3(3.0, 2.0, -1.0), Vec3(4.0, -7.0, -2.2)) == Vec3(-11.4, 2.6, -29.0)
  {
  }

  lemma DotProductExample()
    ensures Dot(Vec3(3.0, 2.0, -1.0), Vec3(4.0, -7.0, -2.2)) == 0.2
  {
  }
}
