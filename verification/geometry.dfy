/**
 * `viewfactor.Geometry`: a triangle batch in structure-of-arrays form, the layout the
 * GPU kernel reads. Parallel columns hold, per triangle, the facet normal, vertex A,
 * the edges B - A and C - A, the centroid and the area. The Java class keeps one
 * `double[]` per axis (sixteen in all); here the three axis columns of a quantity
 * are one column of vectors. An empty batch still has columns of length one, while
 * `size()` reports zero.
 */
module BatchGeometry {
  import opened KernelMath
  import opened Batches
  import opened Wrappers

  /** The column length `initWithSize(n)` allocates: `n`, except one for an empty batch. */
  function ColumnLength(n: nat): (len: nat)
    ensures len >= 1 && len >= n
    ensures n > 0 ==> len == n
  {
    if n == 0 then 1 else n
  }

  class Geometry {
    /** The number of triangles loaded. */
    var size: nat
    /** The facet normals (`normalX/Y/Z`). */
    var normal: seq<Vec3>
    /** Vertex A (`vertexAX/Y/Z`). */
    var vertexA: seq<Vec3>
    /** The edge B - A (`edgeBAX/Y/Z`). */
    var edgeBA: seq<Vec3>
    /** The edge C - A (`edgeCAX/Y/Z`). */
    var edgeCA: seq<Vec3>
    /** The centroid (`centerX/Y/Z`). */
    var center: seq<Vec3>
    /** The area (`area`). */
    var area: seq<real>

    /** All six columns have the same length. */
    ghost predicate Valid()
      reads this
    {
      && |vertexA| == |normal| && |edgeBA| == |normal| && |edgeCA| == |normal|
      && |center| == |normal| && |area| == |normal|
    }

    /** What the columns hold at index `k`. */
    ghost function RowAt(k: nat): Row
      reads this
      requires Valid() && k < |normal|
    {
      Row(normal[k], vertexA[k], edgeBA[k], edgeCA[k], center[k], area[k])
    }

    /** The columns as the getters hand them to a kernel. */
    function AsColumns(): Columns
      reads this
    {
      Columns(normal, vertexA, edgeBA, edgeCA, center, area)
    }

    /** `new Geometry()`: nothing loaded yet (the Java columns are still null). */
    constructor ()
      ensures size == 0 && Valid() && |normal| == 0
    {
      size := 0;
      normal, vertexA, edgeBA, edgeCA, center, area := [], [], [], [], [], [];
    }

    /**
     * `initWithSize(n)`: records `n` as the size and fills every column with `n` zeros,
     * or with a single zero when `n` is zero.
     */
    method InitWithSize(n: nat)
      modifies this
      ensures Valid()
      ensures size == n && |normal| == ColumnLength(n)
      ensures forall k :: 0 <= k < |normal| ==> RowAt(k) == Blank
    {
      size := n;
      var length := n;
      if length == 0 {
        length := 1;
      }
      var zeros := seq(length, _ => Zero);
      normal, vertexA, edgeBA, edgeCA, center := zeros, zeros, zeros, zeros, zeros;
      area := seq(length, _ => 0.0);
    }

    /** `empty()`: no triangles, yet every column has length one. */
    method Empty()
      modifies this
      ensures Valid()
      ensures size == 0 && |normal| == 1 && RowAt(0) == Blank
    {
      InitWithSize(0);
    }

    /** Writes the quantities of one triangle into every column at `index`. */
    method Store(index: nat, row: Row)
      requires Valid() && index < |normal|
      modifies this
      ensures Valid() && size == old(size) && |normal| == old(|normal|)
      ensures forall k :: 0 <= k < |normal| ==> RowAt(k) == (if k == index then row else old(RowAt(k)))
    {
      normal := normal[index := row.normal];
      vertexA := vertexA[index := row.vertexA];
      edgeBA := edgeBA[index := row.edgeBA];
      edgeCA := edgeCA[index := row.edgeCA];
      center := center[index := row.center];
      area := area[index := row.area];
    }

    /**
     * The loop of `initFromStlFileReader` over the rows the reader delivers: row `k` of
     * `rows` is stored at index `k`, in order, and every later row stays blank.
     */
    method StoreAll(rows: seq<Row>)
      requires Valid() && |rows| <= size && |normal| == ColumnLength(size)
      requires forall k :: 0 <= k < |normal| ==> RowAt(k) == Blank
      modifies this
      ensures Valid() && size == old(size) && |normal| == old(|normal|)
      ensures forall k :: 0 <= k < |rows| ==> RowAt(k) == rows[k]
      ensures forall k :: |rows| <= k < |normal| ==> RowAt(k) == Blank
    {
      var index := 0;
      while index < |rows|
        invariant Valid() && size == old(size) && |normal| == old(|normal|)
        invariant 0 <= index <= |rows|
        invariant forall k :: 0 <= k < index ==> RowAt(k) == rows[k]
        invariant forall k :: index <= k < |normal| ==> RowAt(k) == Blank
      {
        Store(index, rows[index]);
        index := index + 1;
      }
    }

    /**
     * `from(reader)` and `initFromStlFileReader`: size the columns for the declared
     * facet count, then store facet `i`, read in order, at index `i`; rows the reader
     * never delivers (and the padding row of an empty batch) stay blank. A reader
     * failure is rethrown as a `RuntimeException`, modelled as `Err` with the reader's
     * reason; one that happens while the reader is built, before `from` runs, changes
     * nothing, one during the loop or at `close` leaves the rows stored so far.
     */
    method From(m: MathLib, read: StlRead) returns (r: Result<(), string>)
      requires Lawful(m)
      modifies this
      ensures read.Unreadable? ==> r == Err(read.reason) && unchanged(this)
      ensures read.Truncated? ==> r == Err(read.reason)
      ensures read.Facets? ==> r.Ok?
      ensures !read.Unreadable? ==> Valid() && size == read.Declared() && |normal| == ColumnLength(read.Declared())
      ensures !read.Unreadable? ==>
        forall k :: 0 <= k < |read.Delivered()| ==> RowAt(k) == RowOf(m, read.Delivered()[k])
      ensures !read.Unreadable? ==> forall k :: |read.Delivered()| <= k < |normal| ==> RowAt(k) == Blank
    {
      if read.Unreadable? {
        return Err(read.reason);
      }
      var facets := read.Delivered();
      var rows := seq(|facets|, k requires 0 <= k < |facets| => RowOf(m, facets[k]));
      InitWithSize(read.Declared());
      StoreAll(rows);
      r := if read.Facets? then Ok(()) else Err(read.reason);
    }
  }
}
