/**
 * The root `Geometry` of the first engine: the facets of one STL file kept as
 * per-triangle normals and vertex triples, plus three derived arrays (centroids,
 * areas, edge pairs) that are computed on the first request and cached. The caches
 * are never cleared, not even by a later `from`, so a reload keeps serving the
 * derived arrays of whatever was loaded when they were first requested.
 */
module RootGeometry {
  import opened KernelMath
  import opened Batches
  import opened Wrappers

  /** The two edges `getEdges` stores per triangle: B - A, then C - A. */
  datatype EdgePair = EdgePair(ba: Vec3, ca: Vec3)

  class Geometry {
    /** The math-only kernel whose `centerOf`, `areaOf` and `edgeFrom` derive the caches. */
    const m: MathLib
    var numTriangles: nat
    var normals: seq<Vec3>
    var triangles: seq<Triangle>
    /** The caches; `None` while the Java field is still null. */
    var centers: Option<seq<Vec3>>
    var areas: Option<seq<real>>
    var edges: Option<seq<EdgePair>>

    /** The loaded arrays have one entry per triangle. */
    ghost predicate Valid()
      reads this
    {
      && Lawful(m)
      && |normals| == numTriangles && |triangles| == numTriangles
    }

    /** `new Geometry(kernelBuilder)`: nothing loaded and nothing cached. */
    constructor (m: MathLib)
      requires Lawful(m)
      ensures Valid() && this.m == m
      ensures numTriangles == 0 && centers == None && areas == None && edges == None
    {
      this.m := m;
      numTriangles := 0;
      normals := [];
      triangles := [];
      centers := None;
      areas := None;
      edges := None;
    }

    /**
     * `from(file)`: sets the triangle count the header declares, allocates zeroed
     * arrays for it and stores facet `i`, read in order, at index `i`. A file that
     * cannot be opened or whose header cannot be parsed throws before any field is
     * written; a failure during the loop or at `close` throws after the facets read so
     * far are stored, the rest staying zero. The caches are left exactly as they were.
     */
    method From(read: StlRead) returns (r: Result<(), string>)
      requires Valid()
      modifies this
      ensures Valid()
      ensures read.Unreadable? ==> r == Err(read.reason) && unchanged(this)
      ensures read.Truncated? ==> r == Err(read.reason)
      ensures read.Facets? ==> r.Ok?
      ensures !read.Unreadable? ==> numTriangles == read.Declared()
      ensures !read.Unreadable? ==> forall i :: 0 <= i < |read.Delivered()| ==>
        normals[i] == read.Delivered()[i].normal && triangles[i] == read.Delivered()[i].vertices
      ensures !read.Unreadable? ==> forall i :: |read.Delivered()| <= i < numTriangles ==>
        normals[i] == Zero && triangles[i] == Triangle(Zero, Zero, Zero)
      ensures centers == old(centers) && areas == old(areas) && edges == old(edges)
    {
      if read.Unreadable? {
        return Err(read.reason);
      }
      var facets := read.Delivered();
      numTriangles := read.Declared();
      normals := seq(numTriangles, _ => Zero);
      triangles := seq(numTriangles, _ => Triangle(Zero, Zero, Zero));
      var index := 0;
      while index < |facets|
        invariant 0 <= index <= |facets| <= numTriangles == read.Declared()
        invariant |normals| == numTriangles && |triangles| == numTriangles
        invariant forall i :: 0 <= i < index ==> normals[i] == facets[i].normal && triangles[i] == facets[i].vertices
        invariant forall i :: index <= i < numTriangles ==> normals[i] == Zero && triangles[i] == Triangle(Zero, Zero, Zero)
        invariant centers == old(centers) && areas == old(areas) && edges == old(edges)
      {
        normals := normals[index := facets[index].normal];
        triangles := triangles[index := facets[index].vertices];
        index := index + 1;
      }
      r := if read.Facets? then Ok(()) else Err(read.reason);
    }

    /**
     * `getCenters()`: the first call computes the centroid of every loaded triangle and
     * caches the array; every later call returns the cached array unchanged.
     */
    method GetCenters() returns (r: seq<Vec3>)
      requires Valid()
      modifies this
      ensures Valid()
      ensures numTriangles == old(numTriangles) && normals == old(normals) && triangles == old(triangles)
      ensures old(centers).Some? ==> r == old(centers).value
      ensures old(centers).None? ==>
        (|r| == numTriangles && forall i :: 0 <= i < numTriangles ==> r[i] == CenterOf(triangles[i]))
      ensures centers == Some(r)
      ensures areas == old(areas) && edges == old(edges)
    {
      if centers == None {
        var computed: seq<Vec3> := [];
        var index := 0;
        while index < numTriangles
          invariant 0 <= index <= numTriangles && |computed| == index
          invariant forall i :: 0 <= i < index ==> computed[i] == CenterOf(triangles[i])
        {
          computed := computed + [CenterOf(triangles[index])];
          index := index + 1;
        }
        centers := Some(computed);
      }
      r := centers.value;
    }

    /**
     * `getAreas()`: the first call computes every triangle's area with the kernel's
     * angle-based `areaOf` and caches the array; later calls return the cache.
     */
    method GetAreas() returns (r: seq<real>)
      requires Valid()
      modifies this
      ensures Valid()
      ensures numTriangles == old(numTriangles) && normals == old(normals) && triangles == old(triangles)
      ensures old(areas).Some? ==> r == old(areas).value
      ensures old(areas).None? ==>
        (|r| == numTriangles && forall i :: 0 <= i < numTriangles ==> r[i] == AngularAreaOf(m, triangles[i]))
      ensures areas == Some(r)
      ensures centers == old(centers) && edges == old(edges)
    {
      if areas == None {
        var computed: seq<real> := [];
        var index := 0;
        while index < numTriangles
          invariant 0 <= index <= numTriangles && |computed| == index
          invariant forall i :: 0 <= i < index ==> computed[i] == AngularAreaOf(m, triangles[i])
        {
          computed := computed + [AngularAreaOf(m, triangles[index])];
          index := index + 1;
        }
        areas := Some(computed);
      }
      r := areas.value;
    }

    /**
     * `getEdges()`: the first call computes B - A and C - A for every triangle and caches
     * the pairs; later calls return the cache.
     */
    method GetEdges() returns (r: seq<EdgePair>)
      requires Valid()
      modifies this
      ensures Valid()
      ensures numTriangles == old(numTriangles) && normals == old(normals) && triangles == old(triangles)
      ensures old(edges).Some? ==> r == old(edges).value
      ensures old(edges).None? ==> (|r| == numTriangles
        && forall i :: 0 <= i < numTriangles ==>
          && Add(triangles[i].a, r[i].ba) == triangles[i].b
          && Add(triangles[i].a, r[i].ca) == triangles[i].c)
      ensures edges == Some(r)
      ensures centers == old(centers) && areas == old(areas)
    {
      if edges == None {
        var computed: seq<EdgePair> := [];
        var index := 0;
        while index < numTriangles
          invariant 0 <= index <= numTriangles && |computed| == index
          invariant forall i :: 0 <= i < index ==>
            computed[i] == EdgePair(EdgeFrom(triangles[i].b, triangles[i].a), EdgeFrom(triangles[i].c, triangles[i].a))
        {
          var triangle := triangles[index];
          computed := computed + [EdgePair(EdgeFrom(triangle.b, triangle.a), EdgeFrom(triangle.c, triangle.a))];
          index := index + 1;
        }
        edges := Some(computed);
      }
      r := edges.value;
    }
  }

  /**
   * Loading a second file does not refresh the caches: centroids requested after the
   * first load are served unchanged after the second, whatever the second file holds.
   */
  method CentersSurviveReload(g: Geometry, first: seq<Facet>, second: seq<Facet>)
      returns (before: seq<Vec3>, after: seq<Vec3>)
    requires g.Valid() && g.centers == None
    modifies g
    ensures |before| == |first| && forall i :: 0 <= i < |first| ==> before[i] == CenterOf(first[i].vertices)
    ensures after == before
    ensures g.numTriangles == |second|
  {
    var loaded := g.From(Facets(first));
    before := g.GetCenters();
    loaded := g.From(Facets(second));
    after := g.GetCenters();
  }
}
