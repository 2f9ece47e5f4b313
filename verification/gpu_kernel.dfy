/**
 * `gpu.IntersectionKernel`, the earlier GPU kernel. For one emitter triangle at a time,
 * `run()` stores per receiver triangle the view-factor term of the pair; there is no
 * occlusion test, although the builder still hands over an interconnect batch.
 * `calculate` runs one pass per emitter index on the caller's thread (the `Runnable`
 * is `run()` directly, never started), hands each pass to the result consumer together
 * with the emitter's area, and calls the completion handler at the end.
 *
 * As for the latest kernel, `execute(Range.create(n))` is a sequential loop over the
 * receiver indices `0 .. n - 1`, and the `put`/`get` buffer copies are left out.
 */
module GpuKernel {
  import opened KernelMath
  import opened Batches
  import opened Wrappers
  import opened GpuBatchGeometry
  import Contribution
  import LatestKernel

  /** The columns of the emitter, interconnect and receiver batches. */
  datatype KernelData = KernelData(emitters: Columns, interconnects: Columns, receivers: Columns)
  {
    predicate WellFormed() {
      emitters.Aligned() && interconnects.Aligned() && receivers.Aligned()
    }

    /** The same batches with the roles of emitters and receivers exchanged. */
    function Swapped(): KernelData {
      KernelData(receivers, interconnects, emitters)
    }

    /** The same batches as the latest kernel's data, with no interconnect triangle tested. */
    function AsLatest(): LatestKernel.KernelData {
      LatestKernel.KernelData(emitters, 0, interconnects, receivers)
    }
  }

  /** What `run()` stores at `result[r]` while emitter `e` is current: the plain term. */
  function ResultFor(m: MathLib, d: KernelData, e: nat, r: nat): real
    requires Lawful(m)
    requires d.WellFormed() && e < |d.emitters.area| && r < |d.receivers.area|
  {
    Contribution.Contribution(m, d.emitters.normal[e], d.emitters.center[e], d.emitters.area[e],
                              d.receivers.normal[r], d.receivers.center[r], d.receivers.area[r])
  }

  /**
   * What one pass leaves in `result` for emitter `e`: `ResultFor` per receiver, which is
   * the latest kernel's pass over the same batches with no interconnect triangle.
   */
  function Pass(m: MathLib, d: KernelData, e: nat): (row: seq<real>)
    requires Lawful(m)
    requires d.WellFormed() && e < |d.emitters.area|
    ensures |row| == |d.receivers.area|
    ensures forall r :: 0 <= r < |row| ==> row[r] == ResultFor(m, d, e, r)
  {
    LatestKernel.Pass(m, d.AsLatest(), e)
  }

  /** A call `calculate` makes on its callbacks. */
  datatype Call =
    | Accept(snapshot: seq<real>, emitterArea: real)  // resultConsumer.accept(result, emitterAreas[i])
    | OnComplete                                      // completionHandler.onComplete()

  /** The consumer calls of the passes for emitters `0 .. count - 1`, in order. */
  function Accepts(m: MathLib, d: KernelData, count: nat): (r: seq<Call>)
    requires Lawful(m)
    requires d.WellFormed() && count <= |d.emitters.area|
    ensures |r| == count
  {
    if count == 0 then [] else Accepts(m, d, count - 1) + [Accept(Pass(m, d, count - 1), d.emitters.area[count - 1])]
  }

  /**
   * Call `j` hands over emitter `j`'s area and, for every receiver `k`, what `run()`
   * stores while emitter `j` is current; none of these calls is the completion.
   */
  lemma {:induction false} AcceptsHoldResults(m: MathLib, d: KernelData, count: nat, j: nat, k: nat)
    requires Lawful(m)
    requires d.WellFormed() && count <= |d.emitters.area|
    requires j < count && k < |d.receivers.area|
    ensures Accepts(m, d, count)[j].Accept?
    ensures Accepts(m, d, count)[j].emitterArea == d.emitters.area[j]
    ensures |Accepts(m, d, count)[j].snapshot| == |d.receivers.area|
    ensures Accepts(m, d, count)[j].snapshot[k] == ResultFor(m, d, j, k)
  {
    if j < count - 1 {
      AcceptsHoldResults(m, d, count - 1, j, k);
    }
  }

  /**
   * The earlier kernel stores what the latest kernel stores for the same emitters and
   * receivers when the latest kernel's interconnect batch is empty.
   */
  lemma AgreesWithLatestWithoutInterconnects(m: MathLib, d: KernelData, e: nat, r: nat)
    requires Lawful(m) && d.WellFormed() && e < |d.emitters.area| && r < |d.receivers.area|
    ensures ResultFor(m, d, e, r) == LatestKernel.ResultFor(m, d.AsLatest(), e, r)
  {
    LatestKernel.NoInterconnectsNoOcclusion(m, d.AsLatest(), e, r);
  }

  /**
   * Reciprocity of the stored terms: the result for emitter `e` and receiver `r` is the
   * result for emitter `r` and receiver `e` once the two batches change roles, as long
   * as the centroids differ and both normals are non-zero.
   */
  lemma SwappedRolesSameResult(m: MathLib, d: KernelData, e: nat, r: nat)
    requires Lawful(m) && d.WellFormed() && e < |d.emitters.area| && r < |d.receivers.area|
    requires d.emitters.center[e] != d.receivers.center[r]
    requires d.emitters.normal[e] != Zero && d.receivers.normal[r] != Zero
    ensures ResultFor(m, d, e, r) == ResultFor(m, d.Swapped(), r, e)
  {
    Contribution.Reciprocity(m, d.emitters.normal[e], d.emitters.center[e], d.emitters.area[e],
      d.receivers.normal[r], d.receivers.center[r], d.receivers.area[r]);
  }

  /**
   * With non-zero normals, non-negative areas and distinct centroids every stored result
   * is non-negative.
   */
  lemma ResultNonnegative(m: MathLib, d: KernelData, e: nat, r: nat)
    requires Lawful(m) && d.WellFormed() && e < |d.emitters.area| && r < |d.receivers.area|
    requires d.emitters.normal[e] != Zero && d.receivers.normal[r] != Zero
    requires d.emitters.area[e] >= 0.0 && d.receivers.area[r] >= 0.0
    requires d.emitters.center[e] != d.receivers.center[r]
    ensures ResultFor(m, d, e, r) >= 0.0
  {
    Contribution.ContributionNonnegative(m, d.emitters.normal[e], d.emitters.center[e], d.emitters.area[e],
      d.receivers.normal[r], d.receivers.center[r], d.receivers.area[r]);
  }

  /** The exceptions `calculate` lets escape. */
  datatype KernelException = MathOnlyKernelException | ArrayIndexOutOfBoundsException

  class IntersectionKernel {
    const m: MathLib
    /** The geometry; `None` for a math-only kernel, whose arrays are all null. */
    const data: Option<KernelData>
    var result: array<real>
    var emitterIndex: nat

    ghost predicate Valid() {
      Lawful(m) && (data.Some? ==> data.value.WellFormed())
    }

    /** The constructor the builder calls; `result` is not allocated yet. */
    constructor (m: MathLib, d: KernelData)
      requires Lawful(m) && d.WellFormed()
      ensures Valid() && this.m == m && data == Some(d)
      ensures emitterIndex == 0 && result.Length == 0
    {
      this.m := m;
      data := Some(d);
      result := new real[0];
      emitterIndex := 0;
    }

    /** `forMathOnly()`: every array null. */
    constructor ForMathOnly(m: MathLib)
      requires Lawful(m)
      ensures Valid() && this.m == m && data == None
      ensures emitterIndex == 0 && result.Length == 0
    {
      this.m := m;
      data := None;
      result := new real[0];
      emitterIndex := 0;
    }

    /** `run()` for receiver `receiverIndex`: the view-factor term, with no occlusion test. */
    method Run(receiverIndex: nat)
      requires Valid() && data.Some?
      requires emitterIndex < |data.value.emitters.area| && receiverIndex < |data.value.receivers.area|
      requires result.Length == |data.value.receivers.area|
      modifies result
      ensures result[..] == old(result[..])[receiverIndex := ResultFor(m, data.value, emitterIndex, receiverIndex)]
    {
      var d := data.value;
      var e, r := emitterIndex, receiverIndex;
      var emitterCenter, receiverCenter := d.emitters.center[e], d.receivers.center[r];
      var ray := Vec3(receiverCenter.x - emitterCenter.x, receiverCenter.y - emitterCenter.y,
                      receiverCenter.z - emitterCenter.z);
      assert ray == EdgeFrom(receiverCenter, emitterCenter);
      var rayMagnitude := Magnitude(m, ray);
      var emitterNormal, receiverNormal := d.emitters.normal[e], d.receivers.normal[r];
      var cosThetaOne := Contribution.Cosine(m, emitterNormal, ray);
      var cosThetaTwo := Contribution.Cosine(m, receiverNormal, ray);
      if cosThetaOne < 0.0 {
        cosThetaOne := -cosThetaOne;
      }
      if cosThetaTwo < 0.0 {
        cosThetaTwo := -cosThetaTwo;
      }
      assert cosThetaOne == Contribution.Abs(Contribution.Cosine(m, emitterNormal, ray));
      assert cosThetaTwo == Contribution.Abs(Contribution.Cosine(m, receiverNormal, ray));
      result[r] := Contribution.Term(m, cosThetaOne, cosThetaTwo, d.emitters.area[e], d.receivers.area[r], rayMagnitude);
    }

    /**
     * `execute(Range.create(receiverAreas.length))`: `run()` for every receiver index in
     * turn. With the emitter index past the emitter columns the first `run()` throws
     * `ArrayIndexOutOfBoundsException` before it stores anything (`thrown`).
     */
    method Execute() returns (thrown: bool)
      requires Valid() && data.Some? && result.Length == |data.value.receivers.area|
      modifies result
      ensures thrown <==> result.Length > 0 && emitterIndex >= |data.value.emitters.area|
      ensures thrown ==> result[..] == old(result[..])
      ensures !thrown && result.Length > 0 ==> result[..] == Pass(m, data.value, emitterIndex)
    {
      var n := result.Length;
      if n > 0 && emitterIndex >= |data.value.emitters.area| {
        return true;
      }
      var r := 0;
      while r < n
        invariant 0 <= r <= n
        invariant forall k :: 0 <= k < r ==> result[k] == ResultFor(m, data.value, emitterIndex, k)
      {
        Run(r);
        r := r + 1;
      }
      return false;
    }

    /**
     * `calculate(resultConsumer, completionHandler)`: `calls` are the callbacks made, in
     * order. A math-only kernel throws at once. Otherwise `result` is allocated with one
     * entry per receiver and the emitter index runs over the RECEIVER count `n`; each
     * pass goes to the consumer with the emitter's area, and the completion handler is
     * called once at the end. When `n` exceeds the emitter column length `E`, the pass
     * for emitter index `E` throws and nothing more is called.
     */
    method Calculate() returns (calls: seq<Call>, thrown: Option<KernelException>)
      requires Valid()
      modifies this
      ensures Valid()
      ensures data.None? ==> calls == [] && thrown == Some(MathOnlyKernelException) && unchanged(this)
      ensures data.Some? ==>
        var d, n := data.value, |data.value.receivers.area|;
        && fresh(result) && result.Length == n
        && (thrown.None? <==> n <= |d.emitters.area|)
        && (thrown.Some? ==> thrown == Some(ArrayIndexOutOfBoundsException))
        && calls == if n <= |d.emitters.area| then Accepts(m, d, n) + [OnComplete]
                    else Accepts(m, d, |d.emitters.area|)
    {
      if data.None? {
        return [], Some(MathOnlyKernelException);
      }
      result := new real[|data.value.receivers.area|];
      calls, thrown := Compute();
      if thrown.None? {
        calls := calls + [OnComplete];
      }
    }

    /** The loop of `calculate`, over emitter indices `0 .. n - 1` with `n` the receiver count. */
    method Compute() returns (calls: seq<Call>, thrown: Option<KernelException>)
      requires Valid() && data.Some? && result.Length == |data.value.receivers.area|
      modifies this, result
      ensures result == old(result)
      ensures var d, n := data.value, |data.value.receivers.area|;
        && (thrown.None? <==> n <= |d.emitters.area|)
        && (thrown.Some? ==> thrown == Some(ArrayIndexOutOfBoundsException))
        && calls == Accepts(m, d, if n <= |d.emitters.area| then n else |d.emitters.area|)
    {
      var d := data.value;
      var n := |d.receivers.area|;
      calls := [];
      emitterIndex := 0;
      while emitterIndex < n
        invariant emitterIndex <= n && emitterIndex <= |d.emitters.area|
        invariant result == old(result) && result.Length == n
        invariant calls == Accepts(m, d, emitterIndex)
        decreases n - emitterIndex
      {
        var exception := Execute();
        if exception {
          return calls, Some(ArrayIndexOutOfBoundsException);
        }
        var snapshot := result[..];
        assert snapshot == Pass(m, d, emitterIndex);
        calls := calls + [Accept(snapshot, d.emitters.area[emitterIndex])];
        emitterIndex := emitterIndex + 1;
      }
      return calls, None;
    }
  }

  /**
   * The columns `from(reader)` leaves in a `GpuGeometry` for `facets`: one row per
   * facet, row `k` derived from facet `k`.
   */
  ghost predicate Filled(c: Columns, m: MathLib, facets: seq<Facet>)
    requires Lawful(m)
  {
    && c.Aligned() && |c.area| == |facets|
    && forall k :: 0 <= k < |facets| ==> c.RowAt(k) == RowOf(m, facets[k])
  }

  /** A filled batch's columns, as the getters hand them over, are the columns `Filled` describes. */
  lemma ColumnsFilled(g: GpuGeometry, m: MathLib, facets: seq<Facet>)
    requires Lawful(m) && g.Valid() && |g.normal| == |facets|
    requires forall k :: 0 <= k < |facets| ==> g.RowAt(k) == RowOf(m, facets[k])
    ensures Filled(g.AsColumns(), m, facets)
  {
    var c := g.AsColumns();
    forall k | 0 <= k < |c.area|
      ensures c.RowAt(k) == g.RowAt(k)
    {
    }
  }

  /** Every area a filled batch holds is non-negative. */
  lemma FilledAreasNonnegative(c: Columns, m: MathLib, facets: seq<Facet>)
    requires Lawful(m) && Filled(c, m, facets)
    ensures forall k :: 0 <= k < |c.area| ==> c.area[k] >= 0.0
  {
    forall k | 0 <= k < |c.area|
      ensures c.area[k] >= 0.0
    {
      assert c.area[k] == c.RowAt(k).area;
      AreaIsHalfNormalLength(m, facets[k].vertices);
    }
  }

  /**
   * `IntersectionKernel.Builder`: each setter loads its file into a fresh batch at
   * once; `build()` hands the three batches to the kernel.
   */
  class Builder {
    const m: MathLib
    var emitters: GpuGeometry?
    var interconnects: GpuGeometry?
    var receivers: GpuGeometry?

    /** Every batch set so far is well formed. */
    ghost predicate Valid()
      reads this, emitters, interconnects, receivers
    {
      && Lawful(m)
      && (emitters != null ==> emitters.Valid())
      && (interconnects != null ==> interconnects.Valid())
      && (receivers != null ==> receivers.Valid())
    }

    /** `new Builder(geometryProvider)`: no batch set. */
    constructor (m: MathLib)
      requires Lawful(m)
      ensures Valid() && this.m == m
      ensures emitters == null && interconnects == null && receivers == null
    {
      this.m := m;
      emitters, interconnects, receivers := null, null, null;
    }

    /** `from(file)` on a fresh batch; a reader failure propagates. */
    static method Load(m: MathLib, read: StlRead) returns (r: Result<GpuGeometry, string>)
      requires Lawful(m)
      ensures !read.Facets? ==> r == Err(read.reason)
      ensures read.Facets? ==>
        && r.Ok? && fresh(r.value) && r.value.Valid() && r.value.numTriangles == |read.facets|
        && Filled(r.value.AsColumns(), m, read.facets)
    {
      var g := new GpuGeometry();
      var loaded := g.From(m, read);
      if loaded.Err? {
        return Err(loaded.error);
      }
      ColumnsFilled(g, m, read.facets);
      return Ok(g);
    }

    /** `setEmitterFile(file)`: a failed read throws and leaves the builder as it was. */
    method SetEmitterFile(read: StlRead) returns (r: Result<(), string>)
      requires Valid()
      modifies this
      ensures Valid() && interconnects == old(interconnects) && receivers == old(receivers)
      ensures !read.Facets? ==> r == Err(read.reason) && emitters == old(emitters)
      ensures read.Facets? ==> r.Ok? && emitters != null && fresh(emitters) && Filled(emitters.AsColumns(), m, read.facets)
    {
      var g := Load(m, read);
      if g.Err? {
        return Err(g.error);
      }
      emitters := g.value;
      return Ok(());
    }

    /** `setInterconnectFile(file)`. */
    method SetInterconnectFile(read: StlRead) returns (r: Result<(), string>)
      requires Valid()
      modifies this
      ensures Valid() && emitters == old(emitters) && receivers == old(receivers)
      ensures !read.Facets? ==> r == Err(read.reason) && interconnects == old(interconnects)
      ensures read.Facets? ==>
        r.Ok? && interconnects != null && fresh(interconnects) && Filled(interconnects.AsColumns(), m, read.facets)
    {
      var g := Load(m, read);
      if g.Err? {
        return Err(g.error);
      }
      interconnects := g.value;
      return Ok(());
    }

    /** `setReceiverFile(file)`. */
    method SetReceiverFile(read: StlRead) returns (r: Result<(), string>)
      requires Valid()
      modifies this
      ensures Valid() && emitters == old(emitters) && interconnects == old(interconnects)
      ensures !read.Facets? ==> r == Err(read.reason) && receivers == old(receivers)
      ensures read.Facets? ==>
        r.Ok? && receivers != null && fresh(receivers) && Filled(receivers.AsColumns(), m, read.facets)
    {
      var g := Load(m, read);
      if g.Err? {
        return Err(g.error);
      }
      receivers := g.value;
      return Ok(());
    }

    /**
     * `build()`: with no interconnect file set, an empty batch takes its place first;
     * then a kernel over the three batches, or a `NullPointerException` (`None`) when
     * the emitter or receiver file was never set.
     */
    method Build() returns (r: Option<IntersectionKernel>)
      requires Valid()
      modifies this
      ensures Valid() && emitters == old(emitters) && receivers == old(receivers)
      ensures old(interconnects) != null ==> interconnects == old(interconnects)
      ensures old(interconnects) == null ==>
        interconnects != null && fresh(interconnects) && interconnects.numTriangles == 0 && |interconnects.normal| == 0
      ensures emitters == null || receivers == null ==> r.None?
      ensures emitters != null && receivers != null ==>
        && r.Some? && fresh(r.value) && r.value.Valid() && r.value.m == m && r.value.emitterIndex == 0
        && r.value.data == Some(KernelData(emitters.AsColumns(), interconnects.AsColumns(), receivers.AsColumns()))
    {
      if interconnects == null {
        var g := new GpuGeometry();
        g.Empty();
        interconnects := g;
      }
      if emitters == null || receivers == null {
        return None;
      }
      var d := KernelData(emitters.AsColumns(), interconnects.AsColumns(), receivers.AsColumns());
      var kernel := new IntersectionKernel(m, d);
      return Some(kernel);
    }
  }
}
