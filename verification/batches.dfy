/**
 * What the triangle batches are built from: the facets an STL reader yields, and the
 * per-triangle quantities every batch stores for them.
 */
module Batches {
  import opened KernelMath

  /** One facet as `STLFileReader.getNextFacet` fills it: the normal and vertices A, B, C. */
  datatype Facet = Facet(normal: Vec3, vertices: Triangle)

  /**
   * What reading an STL file gives:
   *  - `Facets`: all its facets, in file order;
   *  - `Unreadable`: the reader could not be opened or its header not parsed, so no
   *    facet count is known;
   *  - `Truncated`: the header declares `|prefix| + missing` facets, but `getNextFacet`
   *    fails after delivering `prefix` (or, with `missing == 0`, `close` fails after
   *    all of them).
   * Every failure carries the `reason` it is rethrown with as a `RuntimeException`.
   */
  datatype StlRead =
    | Facets(facets: seq<Facet>)
    | Unreadable(reason: string)
    | Truncated(prefix: seq<Facet>, missing: nat, reason: string)
  {
    /** The facet count the header declares (`IntStream.of(getNumOfFacets()).sum()`). */
    function Declared(): (n: nat)
      requires !Unreadable?
      ensures n >= |Delivered()|
    {
      if Facets? then |facets| else |prefix| + missing
    }

    /** The facets `getNextFacet` delivers, in order, before the read ends or fails. */
    function Delivered(): seq<Facet>
      requires !Unreadable?
    {
      if Facets? then facets else prefix
    }
  }

  /** The normal `(B - A) x (C - A)` whose length is twice the area. */
  function EdgeNormal(t: Triangle): Vec3 {
    Cross(EdgeFrom(t.b, t.a), EdgeFrom(t.c, t.a))
  }

  /**
   * `areaOf(triangle)` of both batch classes: with `x = B - A` and `y = C - A`, half the
   * square root of the sum of the squared components of `x x y` (the Java code writes
   * the cross product out component by component).
   */
  function AreaOf(m: MathLib, t: Triangle): real
    requires Lawful(m)
  {
    0.5 * m.sqrt(Dot(EdgeNormal(t), EdgeNormal(t)))
  }

  /**
   * The area is half the length of the edge normal: never negative, and zero exactly
   * when `x x y` has zero squared length.
   */
  lemma AreaIsHalfNormalLength(m: MathLib, t: Triangle)
    requires Lawful(m)
    ensures AreaOf(m, t) == 0.5 * Magnitude(m, EdgeNormal(t))
    ensures AreaOf(m, t) >= 0.0
    ensures AreaOf(m, t) == 0.0 <==> Dot(EdgeNormal(t), EdgeNormal(t)) == 0.0
  {
    var r := Magnitude(m, EdgeNormal(t));
  }

  /** A triangle with two equal vertices has no area. */
  lemma DegenerateTriangleHasNoArea(m: MathLib, t: Triangle)
    requires Lawful(m)
    requires t.a == t.b || t.a == t.c || t.b == t.c
    ensures AreaOf(m, t) == 0.0
  {
    var e1, e2 := EdgeFrom(t.b, t.a), EdgeFrom(t.c, t.a);
    if t.a == t.b {
      assert e1 == Zero;
    } else if t.a == t.c {
      assert e2 == Zero;
    } else {
      assert e1 == e2;
    }
    assert EdgeNormal(t) == Zero;
    AreaIsHalfNormalLength(m, t);
  }

  /**
   * What a batch stores for one triangle: the facet normal, vertex A, the edges B - A
   * and C - A, the centroid and the area.
   */
  datatype Row = Row(normal: Vec3, vertexA: Vec3, edgeBA: Vec3, edgeCA: Vec3, center: Vec3, area: real)

  /** The zero-filled row of a freshly allocated batch. */
  const Blank := Row(Zero, Zero, Zero, Zero, Zero, 0.0)

  /** The row a load stores for facet `f`. */
  function RowOf(m: MathLib, f: Facet): Row
    requires Lawful(m)
  {
    var t := f.vertices;
    Row(f.normal, t.a, EdgeFrom(t.b, t.a), EdgeFrom(t.c, t.a), CenterOf(t), AreaOf(m, t))
  }

  /**
   * A stored row loses nothing about its triangle: B and C are vertex A plus the two
   * stored edges, the centroid is a third of A + B + C, and the area is never negative.
   */
  lemma RowDeterminesTriangle(m: MathLib, f: Facet)
    requires Lawful(m)
    ensures var r := RowOf(m, f);
      && r.vertexA == f.vertices.a
      && Add(r.vertexA, r.edgeBA) == f.vertices.b
      && Add(r.vertexA, r.edgeCA) == f.vertices.c
      && Scale(3.0, r.center) == Add(Add(f.vertices.a, f.vertices.b), f.vertices.c)
      && r.area >= 0.0
  {
    AreaIsHalfNormalLength(m, f.vertices);
  }

  /**
   * A batch's columns as the kernels receive them (the Java getters hand over the
   * arrays themselves; here their contents).
   */
  datatype Columns = Columns(
    normal: seq<Vec3>, vertexA: seq<Vec3>, edgeBA: seq<Vec3>, edgeCA: seq<Vec3>,
    center: seq<Vec3>, area: seq<real>)
  {
    /** Every column has as many entries as the area column. */
    predicate Aligned() {
      && |normal| == |area| && |vertexA| == |area| && |edgeBA| == |area|
      && |edgeCA| == |area| && |center| == |area|
    }

    /** The row at index `k`. */
    function RowAt(k: nat): Row
      requires Aligned() && k < |area|
    {
      Row(normal[k], vertexA[k], edgeBA[k], edgeCA[k], center[k], area[k])
    }
  }
}
