/**
 * `gpu.GpuGeometry`, the earlier batch class: the same columns and the same per-facet
 * fill as `viewfactor.Geometry` (the three axis arrays of a quantity again modelled
 * as one column of vectors), but every column's length is exactly the triangle
 * count, so an empty batch has empty columns.
 */
module GpuBatchGeometry {
  import opened KernelMath
  import opened Batches
  import opened Wrappers

  class GpuGeometry {
    /** The number of triangles loaded. */
    var numTriangles: nat
    /** The facet normals (`normalX/Y/Z`). */
    var normal: seq<Vec3>
    /** Vertex A (`vertexAX/Y/Z`). */
    var vertexA: seq<Vec3>
    /** The edge B - A (`edgeBAX/Y/Z`). */
    var edgeBA: seq<Vec3>
    /** The edge C - A (`edgeCAX/Y/Z`). */
    var edgeCA: seq<Vec3>
    /** The centroid (`centerX/Y/Z`). */
    var center: seq<Vec3>
    /** The area (`area`). */
    var area: seq<real>

    /** All six columns have the same length. */
    ghost predicate Valid()
      reads this
    {
      && |vertexA| == |normal| && |edgeBA| == |normal| && |edgeCA| == |normal|
      && |center| == |normal| && |area| == |normal|
    }

    /** What the columns hold at index `k`. */
    ghost function RowAt(k: nat): Row
      reads this
      requires Valid() && k < |normal|
    {
      Row(normal[k], vertexA[k], edgeBA[k], edgeCA[k], center[k], area[k])
    }

    /** The columns as the getters hand them to a kernel. */
    function AsColumns(): Columns
      reads this
    {
      Columns(normal, vertexA, edgeBA, edgeCA, center, area)
    }

    /** `new GpuGeometry()`: nothing loaded yet (the Java columns are still null). */
    constructor ()
      ensures numTriangles == 0 && Valid() && |normal| == 0
    {
      numTriangles := 0;
      normal, vertexA, edgeBA, edgeCA, center, area := [], [], [], [], [], [];
    }

    /** `initWithSize(n)`: records `n` as the triangle count and fills every column with `n` zeros. */
    method InitWithSize(n: nat)
      modifies this
      ensures Valid()
      ensures numTriangles == n && |normal| == n
      ensures forall k :: 0 <= k < |normal| ==> RowAt(k) == Blank
    {
      numTriangles := n;
      var length := n;
      var zeros := seq(length, _ => Zero);
      normal, vertexA, edgeBA, edgeCA, center := zeros, zeros, zeros, zeros, zeros;
      area := seq(length, _ => 0.0);
    }

    /** `empty()`: no triangles and empty columns. */
    method Empty()
      modifies this
      ensures Valid()
      ensures numTriangles == 0 && |normal| == 0
    {
      InitWithSize(0);
    }

    /** Writes the quantities of one triangle into every column at `index`. */
    method Store(index: nat, row: Row)
      requires Valid() && index < |normal|
      modifies this
      ensures Valid() && numTriangles == old(numTriangles) && |normal| == old(|normal|)
      ensures forall k :: 0 <= k < |normal| ==> RowAt(k) == (if k == index then row else old(RowAt(k)))
    {
      normal := normal[index := row.normal];
      vertexA := vertexA[index := row.vertexA];
      edgeBA := edgeBA[index := row.edgeBA];
      edgeCA := edgeCA[index := row.edgeCA];
      center := center[index := row.center];
      area := area[index := row.area];
    }

    /**
     * The loop of `from(file)` over the rows the reader delivers: row `k` of `rows` is
     * stored at index `k`, in order, and every later row stays blank.
     */
    method StoreAll(rows: seq<Row>)
      requires Valid() && |rows| <= numTriangles && |normal| == numTriangles
      requires forall k :: 0 <= k < |normal| ==> RowAt(k) == Blank
      modifies this
      ensures Valid() && numTriangles == old(numTriangles) && |normal| == old(|normal|)
      ensures forall k :: 0 <= k < |rows| ==> RowAt(k) == rows[k]
      ensures forall k :: |rows| <= k < |normal| ==> RowAt(k) == Blank
    {
      var index := 0;
      while index < |rows|
        invariant Valid() && numTriangles == old(numTriangles) && |normal| == old(|normal|)
        invariant 0 <= index <= |rows|
        invariant forall k :: 0 <= k < index ==> RowAt(k) == rows[k]
        invariant forall k :: index <= k < |normal| ==> RowAt(k) == Blank
      {
        Store(index, rows[index]);
        index := index + 1;
      }
    }

    /**
     * `from(file)`: open the STL file, size the columns for its declared facet count,
     * then store facet `i`, read in order, at index `i`; rows the reader never delivers
     * stay blank. Any failure is rethrown as a `RuntimeException`, modelled as `Err`
     * with the reader's reason: one while opening the file or parsing its header
     * changes nothing, one during the loop or at `close` leaves the rows stored so far.
     */
    method From(m: MathLib, read: StlRead) returns (r: Result<(), string>)
      requires Lawful(m)
      modifies this
      ensures read.Unreadable? ==> r == Err(read.reason) && unchanged(this)
      ensures read.Truncated? ==> r == Err(read.reason)
      ensures read.Facets? ==> r.Ok?
      ensures !read.Unreadable? ==> Valid() && numTriangles == read.Declared() && |normal| == read.Declared()
      ensures !read.Unreadable? ==>
        forall k :: 0 <= k < |read.Delivered()| ==> RowAt(k) == RowOf(m, read.Delivered()[k])
      ensures !read.Unreadable? ==> forall k :: |read.Delivered()| <= k < |normal| ==> RowAt(k) == Blank
    {
      if read.Unreadable? {
        return Err(read.reason);
      }
      var facets := read.Delivered();
      var rows := seq(|facets|, k requires 0 <= k < |facets| => RowOf(m, facets[k]));
      InitWithSize(read.Declared());
      StoreAll(rows);
      r := if read.Facets? then Ok(()) else Err(read.reason);
    }
  }
}
