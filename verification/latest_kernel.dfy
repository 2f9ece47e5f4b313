/**
 * `viewfactor.gpu.IntersectionKernel`, the latest kernel. For one emitter triangle at a
 * time, `run()` computes per receiver triangle the view-factor term of the pair, or
 * exactly zero when a triangle of the interconnect geometry lies across the ray between
 * the two centroids. `calculate` drives one pass per emitter index and reports the
 * stages through the event manager; `Builder.build` loads the three batches.
 *
 * Aparapi's `execute(Range.create(n))` is modelled as a sequential loop over the
 * receiver indices `0 .. n - 1`; the explicit `put`/`get` buffer copies change nothing
 * observable and are left out.
 */
module LatestKernel {
  import opened KernelMath
  import opened Batches
  import opened Wrappers
  import opened Timing
  import opened Pipeline
  import opened Events
  import opened EventManagement
  import opened LatestIntersection
  import BatchGeometry
  import Contribution

  /**
   * What the builder hands the constructor: the columns of the emitter, interconnect
   * and receiver batches, and the interconnect batch's `size()`.
   */
  datatype KernelData = KernelData(emitters: Columns, interconnectSize: nat, interconnects: Columns, receivers: Columns)
  {
    /** Each batch's columns are aligned, and `size()` never exceeds the column length. */
    predicate WellFormed() {
      && emitters.Aligned() && interconnects.Aligned() && receivers.Aligned()
      && interconnectSize <= |interconnects.area|
    }
  }

  /** `rayX, rayY, rayZ` of `run()`: from emitter `e`'s centroid to receiver `r`'s. */
  function Ray(d: KernelData, e: nat, r: nat): Vec3
    requires d.WellFormed() && e < |d.emitters.area| && r < |d.receivers.area|
  {
    EdgeFrom(d.receivers.center[r], d.emitters.center[e])
  }

  /** `intersectionDistance(i, r, ...)` with emitter `e` current. */
  function Distance(d: KernelData, e: nat, r: nat, i: nat): real
    requires d.WellFormed() && e < |d.emitters.area| && r < |d.receivers.area| && i < d.interconnectSize
  {
    IntersectionDistance(d.emitters.center[e], Ray(d, e, r),
      d.interconnects.vertexA[i], d.interconnects.edgeBA[i], d.interconnects.edgeCA[i])
  }

  /** Interconnect triangle `i` passes the occlusion test for the pair `(e, r)`. */
  predicate BlockedBy(m: MathLib, d: KernelData, e: nat, r: nat, i: nat)
    requires Lawful(m)
    requires d.WellFormed() && e < |d.emitters.area| && r < |d.receivers.area| && i < d.interconnectSize
  {
    Blocks(Distance(d, e, r, i), Magnitude(m, Ray(d, e, r)))
  }

  /** Some interconnect triangle below `interconnectSize` blocks the pair. */
  predicate Occluded(m: MathLib, d: KernelData, e: nat, r: nat)
    requires Lawful(m)
    requires d.WellFormed() && e < |d.emitters.area| && r < |d.receivers.area|
  {
    exists i :: 0 <= i < d.interconnectSize && BlockedBy(m, d, e, r, i)
  }

  /** What `run()` stores at `result[r]` while emitter `e` is current. */
  function ResultFor(m: MathLib, d: KernelData, e: nat, r: nat): real
    requires Lawful(m)
    requires d.WellFormed() && e < |d.emitters.area| && r < |d.receivers.area|
  {
    if Occluded(m, d, e, r) then 0.0
    else Contribution.Contribution(m, d.emitters.normal[e], d.emitters.center[e], d.emitters.area[e],
                                   d.receivers.normal[r], d.receivers.center[r], d.receivers.area[r])
  }

  /** What one pass of the kernel leaves in `result` for emitter `e`: `ResultFor` per receiver. */
  function Pass(m: MathLib, d: KernelData, e: nat): (row: seq<real>)
    requires Lawful(m)
    requires d.WellFormed() && e < |d.emitters.area|
    ensures |row| == |d.receivers.area|
    ensures forall r :: 0 <= r < |row| ==> row[r] == ResultFor(m, d, e, r)
  {
    seq(|d.receivers.area|, r requires 0 <= r < |d.receivers.area| => ResultFor(m, d, e, r))
  }

  /** The snapshots the consumer receives from the passes for emitters `0 .. count - 1`, in order. */
  function Passes(m: MathLib, d: KernelData, count: nat): (r: seq<seq<real>>)
    requires Lawful(m)
    requires d.WellFormed() && count <= |d.emitters.area|
    ensures |r| == count
  {
    if count == 0 then [] else Passes(m, d, count - 1) + [Pass(m, d, count - 1)]
  }

  /** Snapshot `j` holds, for every receiver `k`, what `run()` stores while emitter `j` is current. */
  lemma {:induction false} PassesHoldResults(m: MathLib, d: KernelData, count: nat, j: nat, k: nat)
    requires Lawful(m)
    requires d.WellFormed() && count <= |d.emitters.area|
    requires j < count && k < |d.receivers.area|
    ensures |Passes(m, d, count)[j]| == |d.receivers.area|
    ensures Passes(m, d, count)[j][k] == ResultFor(m, d, j, k)
  {
    if j < count - 1 {
      PassesHoldResults(m, d, count - 1, j, k);
    }
  }

  /**
   * With non-zero normals, non-negative areas and distinct centroids every stored result
   * is non-negative: zero when occluded, otherwise the non-negative view-factor term.
   */
  lemma ResultNonnegative(m: MathLib, d: KernelData, e: nat, r: nat)
    requires Lawful(m)
    requires d.WellFormed() && e < |d.emitters.area| && r < |d.receivers.area|
    requires d.emitters.normal[e] != Zero && d.receivers.normal[r] != Zero
    requires d.emitters.area[e] >= 0.0 && d.receivers.area[r] >= 0.0
    requires d.emitters.center[e] != d.receivers.center[r]
    ensures ResultFor(m, d, e, r) >= 0.0
  {
    if !Occluded(m, d, e, r) {
      Contribution.ContributionNonnegative(m, d.emitters.normal[e], d.emitters.center[e], d.emitters.area[e],
        d.receivers.normal[r], d.receivers.center[r], d.receivers.area[r]);
    }
  }

  /** Without interconnect triangles nothing is occluded and `run()` stores the plain term. */
  lemma NoInterconnectsNoOcclusion(m: MathLib, d: KernelData, e: nat, r: nat)
    requires Lawful(m)
    requires d.WellFormed() && e < |d.emitters.area| && r < |d.receivers.area|
    requires d.interconnectSize == 0
    ensures ResultFor(m, d, e, r)
      == Contribution.Contribution(m, d.emitters.normal[e], d.emitters.center[e], d.emitters.area[e],
                                   d.receivers.normal[r], d.receivers.center[r], d.receivers.area[r])
  {
  }

  /**
   * The columns `from(reader)` leaves behind for `facets`: `ColumnLength(|facets|)` rows,
   * row `k` derived from facet `k`, and a blank padding row for an empty batch.
   */
  ghost predicate Loaded(c: Columns, m: MathLib, facets: seq<Facet>)
    requires Lawful(m)
  {
    && c.Aligned() && |c.area| == BatchGeometry.ColumnLength(|facets|)
    && (forall k :: 0 <= k < |facets| ==> c.RowAt(k) == RowOf(m, facets[k]))
    && (forall k :: |facets| <= k < |c.area| ==> c.RowAt(k) == Blank)
  }

  /** Every area a load stores, padding included, is non-negative. */
  lemma LoadedAreasNonnegative(c: Columns, m: MathLib, facets: seq<Facet>)
    requires Lawful(m) && Loaded(c, m, facets)
    ensures forall k :: 0 <= k < |c.area| ==> c.area[k] >= 0.0
  {
    forall k | 0 <= k < |c.area|
      ensures c.area[k] >= 0.0
    {
      assert c.area[k] == c.RowAt(k).area;
      if k < |facets| {
        assert c.RowAt(k) == RowOf(m, facets[k]);
      } else {
        assert c.RowAt(k) == Blank;
      }
    }
  }

  /**
   * For batches loaded from STL facets, every result `run()` stores for a pair of facets
   * with non-zero normals and distinct centroids is non-negative. (The blank padding row
   * of an empty batch has a zero normal and is not such a facet.)
   */
  lemma LoadedResultNonnegative(m: MathLib, d: KernelData, emitterFacets: seq<Facet>,
                                receiverFacets: seq<Facet>, e: nat, r: nat)
    requires Lawful(m) && d.WellFormed()
    requires Loaded(d.emitters, m, emitterFacets) && Loaded(d.receivers, m, receiverFacets)
    requires e < |emitterFacets| && r < |receiverFacets|
    requires emitterFacets[e].normal != Zero && receiverFacets[r].normal != Zero
    requires d.emitters.center[e] != d.receivers.center[r]
    ensures ResultFor(m, d, e, r) >= 0.0
  {
    LoadedAreasNonnegative(d.emitters, m, emitterFacets);
    LoadedAreasNonnegative(d.receivers, m, receiverFacets);
    assert d.emitters.RowAt(e) == RowOf(m, emitterFacets[e]);
    assert d.receivers.RowAt(r) == RowOf(m, receiverFacets[r]);
    ResultNonnegative(m, d, e, r);
  }

  /** What escapes `calculate` instead of being reported to the event manager. */
  datatype Uncaught = NullPointerException

  class IntersectionKernel {
    /** `Math.sqrt`, `PI` and the rest of the floating-point library. */
    const m: MathLib
    /** The geometry; `None` for a math-only kernel, whose arrays are all null. */
    const data: Option<KernelData>
    const events: EventManager?
    /** `result`: one entry per receiver once `calculate` has allocated it. */
    var result: array<real>
    var emitterIndex: nat

    /** Geometry and event manager are present together, and the geometry is well formed. */
    ghost predicate Valid() {
      && Lawful(m)
      && (data.Some? <==> events != null)
      && (data.Some? ==> data.value.WellFormed())
    }

    /** The constructor the builder calls; `result` is not allocated yet. */
    constructor (m: MathLib, events: EventManager, d: KernelData)
      requires Lawful(m) && d.WellFormed()
      ensures Valid()
      ensures this.m == m && this.events == events && data == Some(d)
      ensures emitterIndex == 0 && result.Length == 0
    {
      this.m := m;
      this.events := events;
      data := Some(d);
      result := new real[0];
      emitterIndex := 0;
    }

    /** `forMathOnly()`: no geometry and no event manager. */
    constructor ForMathOnly(m: MathLib)
      requires Lawful(m)
      ensures Valid()
      ensures this.m == m && events == null && data == None
      ensures emitterIndex == 0 && result.Length == 0
    {
      this.m := m;
      events := null;
      data := None;
      result := new real[0];
      emitterIndex := 0;
    }

    /**
     * `run()` for receiver `receiverIndex`: scan the interconnect triangles in order and
     * store zero at the first that blocks the ray; otherwise store the view-factor term.
     * `scanned` is the index of the blocking triangle, or `interconnectSize`.
     */
    method Run(receiverIndex: nat) returns (scanned: nat)
      requires Valid() && data.Some?
      requires emitterIndex < |data.value.emitters.area| && receiverIndex < |data.value.receivers.area|
      requires result.Length == |data.value.receivers.area|
      modifies result
      ensures result[..] == old(result[..])[receiverIndex := ResultFor(m, data.value, emitterIndex, receiverIndex)]
      ensures scanned <= data.value.interconnectSize
      ensures forall j :: 0 <= j < scanned ==> !BlockedBy(m, data.value, emitterIndex, receiverIndex, j)
      ensures scanned < data.value.interconnectSize ==> BlockedBy(m, data.value, emitterIndex, receiverIndex, scanned)
    {
      var d := data.value;
      var e, r := emitterIndex, receiverIndex;
      var emitterCenter, receiverCenter := d.emitters.center[e], d.receivers.center[r];
      var ray := Vec3(receiverCenter.x - emitterCenter.x, receiverCenter.y - emitterCenter.y,
                      receiverCenter.z - emitterCenter.z);
      assert ray == Ray(d, e, r);
      var rayMagnitude := Magnitude(m, ray);

      var i := 0;
      while i < d.interconnectSize
        invariant i <= d.interconnectSize
        invariant forall j :: 0 <= j < i ==> !BlockedBy(m, d, e, r, j)
      {
        var distance := IntersectionDistance(emitterCenter, ray,
          d.interconnects.vertexA[i], d.interconnects.edgeBA[i], d.interconnects.edgeCA[i]);
        if distance != 0.0 && distance <= rayMagnitude {
          assert BlockedBy(m, d, e, r, i);
          result[r] := 0.0;
          return i;
        }
        i := i + 1;
      }

      var emitterNormal, receiverNormal := d.emitters.normal[e], d.receivers.normal[r];
      var cosThetaOne := Contribution.Cosine(m, emitterNormal, ray);
      var cosThetaTwo := Contribution.Cosine(m, receiverNormal, ray);
      if cosThetaOne < 0.0 {
        cosThetaOne := -cosThetaOne;
      }
      if cosThetaTwo < 0.0 {
        cosThetaTwo := -cosThetaTwo;
      }
      assert !Occluded(m, d, e, r);
      assert cosThetaOne == Contribution.Abs(Contribution.Cosine(m, emitterNormal, ray));
      assert cosThetaTwo == Contribution.Abs(Contribution.Cosine(m, receiverNormal, ray));
      result[r] := Contribution.Term(m, cosThetaOne, cosThetaTwo, d.emitters.area[e], d.receivers.area[r], rayMagnitude);
      return i;
    }

    /**
     * `execute(Range.create(result.length))`: `run()` for every receiver index in turn.
     * With the emitter index past the emitter columns the first `run()` throws
     * `ArrayIndexOutOfBoundsException` before it stores anything (`thrown`).
     */
    method Execute() returns (thrown: bool)
      requires Valid() && data.Some? && result.Length == |data.value.receivers.area|
      modifies result
      ensures thrown <==> result.Length > 0 && emitterIndex >= |data.value.emitters.area|
      ensures thrown ==> result[..] == old(result[..])
      ensures !thrown && result.Length > 0 ==> result[..] == Pass(m, data.value, emitterIndex)
    {
      var n := result.Length;
      if n > 0 && emitterIndex >= |data.value.emitters.area| {
        return true;
      }
      var r := 0;
      while r < n
        invariant 0 <= r <= n
        invariant forall k :: 0 <= k < r ==> result[k] == ResultFor(m, data.value, emitterIndex, k)
      {
        var scanned := Run(r);
        r := r + 1;
      }
      return false;
    }

    /**
     * `calculate(resultConsumer, completionHandler)`. The consumer's snapshots are the
     * `Ok` value, one per emitter index; `completion` is what `onComplete()` returns and
     * `outOfBounds` the message of the index exception.
     *
     * A math-only kernel throws inside the `try`, and the handler's call on the null
     * event manager lets a `NullPointerException` escape. Otherwise every exception is
     * reported: a rejected `startBufferTransfer` at once, with no message. The loop runs
     * the emitter index over the RECEIVER count `n`; when `n` exceeds the emitter column
     * length `E`, the pass for emitter index `E` throws and is reported instead of the
     * finish.
     */
    method Calculate(now: int, transfer: Elapsed, computation: Elapsed, completion: real,
                     outOfBounds: Option<string>)
        returns (r: Result<seq<seq<real>>, Uncaught>)
      requires Valid()
      requires events != null ==> events.Valid()
      modifies this, events
      ensures Valid()
      ensures data.None? ==> r == Err(NullPointerException) && unchanged(this)
      ensures data.Some? ==> r.Ok? && events.Valid() && events.subscribers == old(events.subscribers)
      ensures data.Some? && old(events.state) != PostParseStl ==>
        && r.value == [] && result == old(result) && emitterIndex == old(emitterIndex)
        && events.state == Pipeline.Exception
        && events.events == old(events.events) + [Event(ExceptionThrown(None), now)]
      ensures data.Some? && old(events.state) == PostParseStl ==>
        var d, n := data.value, |data.value.receivers.area|;
        var jobs := if n <= |d.emitters.area| then n else |d.emitters.area|;
        && events.events == old(events.events)
             + [Event(BufferTransferStart, now), Event(BufferTransferFinish(transfer), now), Event(ComputationStart, now)]
             + ProgressEvents(now, jobs, n)
             + [if n <= |d.emitters.area| then Event(ComputationFinish(computation, completion), now)
                else Event(ExceptionThrown(outOfBounds), now)]
        && events.state == (if n <= |d.emitters.area| then PostComputation else Pipeline.Exception)
        && r.value == Passes(m, d, jobs)
    {
      if data.None? {
        return Err(NullPointerException);
      }
      var ok := TransferBuffers(now, transfer);
      if !ok {
        return Ok([]);
      }
      var snapshots, completed := Compute(now, outOfBounds);
      if completed {
        ok := events.FinishComputation(now, computation, completion);
      }
      return Ok(snapshots);
    }

    /**
     * The part of `calculate` before the loop: `startBufferTransfer`, the allocation of
     * `result` with one entry per receiver, `finishBufferTransfer` and
     * `startComputation`. A rejected `startBufferTransfer` throws, and the handler
     * reports the exception, which carries no message.
     */
    method TransferBuffers(now: int, transfer: Elapsed) returns (ok: bool)
      requires Valid() && data.Some? && events.Valid()
      modifies this, events
      ensures events.Valid() && events.subscribers == old(events.subscribers) && emitterIndex == old(emitterIndex)
      ensures ok <==> old(events.state) == PostParseStl
      ensures !ok ==>
        && result == old(result) && events.state == Pipeline.Exception
        && events.events == old(events.events) + [Event(ExceptionThrown(None), now)]
      ensures ok ==>
        && fresh(result) && result.Length == |data.value.receivers.area| && events.state == Computation
        && events.events == old(events.events)
             + [Event(BufferTransferStart, now), Event(BufferTransferFinish(transfer), now), Event(ComputationStart, now)]
    {
      ok := events.StartBufferTransfer(now);
      if !ok {
        events.ReportException(now, None);
        return;
      }
      result := new real[|data.value.receivers.area|];
      var accepted := events.FinishBufferTransfer(now, transfer);
      accepted := events.StartComputation(now);
    }

    /**
     * The loop of `calculate`: for emitter indices `0 .. n - 1`, with `n` the receiver
     * count, execute the kernel, report progress and hand a snapshot of `result` to the
     * consumer. An index past the emitter columns ends the loop with the exception
     * reported (`completed` false); otherwise the computation is ready to finish.
     */
    method Compute(now: int, outOfBounds: Option<string>) returns (snapshots: seq<seq<real>>, completed: bool)
      requires Valid() && data.Some? && events.Valid() && events.state == Computation
      requires result.Length == |data.value.receivers.area|
      modifies this, result, events
      ensures result == old(result) && events.Valid() && events.subscribers == old(events.subscribers)
      ensures completed <==> |data.value.receivers.area| <= |data.value.emitters.area|
      ensures var n := |data.value.receivers.area|;
        var jobs := if completed then n else |data.value.emitters.area|;
        && events.events == old(events.events) + ProgressEvents(now, jobs, n)
             + (if completed then [] else [Event(ExceptionThrown(outOfBounds), now)])
        && events.state == (if completed then Computation else Pipeline.Exception)
        && snapshots == Passes(m, data.value, jobs)
    {
      var d := data.value;
      var n := |d.receivers.area|;
      snapshots := [];
      emitterIndex := 0;
      while emitterIndex < n
        invariant emitterIndex <= n && emitterIndex <= |d.emitters.area|
        invariant result == old(result) && result.Length == n
        invariant events.Valid() && events.state == Computation && events.subscribers == old(events.subscribers)
        invariant events.events == old(events.events) + ProgressEvents(now, emitterIndex, n)
        invariant |snapshots| == emitterIndex
        invariant snapshots == Passes(m, d, emitterIndex)
        decreases n - emitterIndex
      {
        var thrown := Execute();
        if thrown {
          events.ReportException(now, outOfBounds);
          return snapshots, false;
        }
        var snapshot := result[..];
        assert snapshot == Pass(m, d, emitterIndex);
        events.UpdateComputationProgress(now, emitterIndex, n);
        snapshots := snapshots + [snapshot];
        emitterIndex := emitterIndex + 1;
      }
      return snapshots, true;
    }
  }

  /** The first file that fails to read, in the order `build` loads them: emitters, receivers, interconnects. */
  function FirstReadFailure(emitterRead: StlRead, receiverRead: StlRead, interconnectRead: Option<StlRead>): (r: Option<string>)
    ensures r.None? <==>
      (emitterRead.Facets? && receiverRead.Facets? && (interconnectRead.Some? ==> interconnectRead.value.Facets?))
    ensures !emitterRead.Facets? ==> r == Some(emitterRead.reason)
    ensures emitterRead.Facets? && !receiverRead.Facets? ==> r == Some(receiverRead.reason)
  {
    if !emitterRead.Facets? then Some(emitterRead.reason)
    else if !receiverRead.Facets? then Some(receiverRead.reason)
    else if interconnectRead.Some? && !interconnectRead.value.Facets? then Some(interconnectRead.value.reason)
    else None
  }

  /** The interconnect facets: none when no interconnect file was given. */
  function InterconnectFacets(interconnectRead: Option<StlRead>): seq<Facet>
    requires interconnectRead.Some? ==> interconnectRead.value.Facets?
  {
    if interconnectRead.Some? then interconnectRead.value.facets else []
  }

  /** Why `build` can fail: a rejected `startParseStl`, or a file that cannot be read. */
  datatype BuildFailure = IllegalState | ReadFailure(reason: string)

  /** A loaded batch's columns, as the getters hand them over, are the columns `Loaded` describes. */
  lemma ColumnsLoaded(g: BatchGeometry.Geometry, m: MathLib, facets: seq<Facet>)
    requires Lawful(m) && g.Valid() && |g.normal| == BatchGeometry.ColumnLength(|facets|)
    requires forall k :: 0 <= k < |facets| ==> g.RowAt(k) == RowOf(m, facets[k])
    requires forall k :: |facets| <= k < |g.normal| ==> g.RowAt(k) == Blank
    ensures Loaded(g.AsColumns(), m, facets)
  {
    var c := g.AsColumns();
    forall k | 0 <= k < |c.area|
      ensures c.RowAt(k) == g.RowAt(k)
    {
    }
  }

  /** `Geometry.from(reader)` on a new batch, as `build` calls it for one file. */
  method Load(m: MathLib, read: StlRead) returns (r: Result<BatchGeometry.Geometry, string>)
    requires Lawful(m)
    ensures !read.Facets? ==> r == Err(read.reason)
    ensures read.Facets? ==>
      && r.Ok? && fresh(r.value) && r.value.Valid() && r.value.size == |read.facets|
      && Loaded(r.value.AsColumns(), m, read.facets)
  {
    var g := new BatchGeometry.Geometry();
    var loaded := g.From(m, read);
    if loaded.Err? {
      return Err(loaded.error);
    }
    ColumnsLoaded(g, m, read.facets);
    return Ok(g);
  }

  /** The interconnect batch of `build`: `Geometry.empty()` when no file was set, otherwise a load. */
  method LoadInterconnects(m: MathLib, read: Option<StlRead>) returns (r: Result<BatchGeometry.Geometry, string>)
    requires Lawful(m)
    ensures read.Some? && !read.value.Facets? ==> r == Err(read.value.reason)
    ensures (read.Some? ==> read.value.Facets?) ==>
      && r.Ok? && fresh(r.value) && r.value.Valid() && r.value.size == |InterconnectFacets(read)|
      && Loaded(r.value.AsColumns(), m, InterconnectFacets(read))
  {
    if read.Some? {
      r := Load(m, read.value);
      return;
    }
    var g := new BatchGeometry.Geometry();
    g.Empty();
    ColumnsLoaded(g, m, []);
    return Ok(g);
  }

  /**
   * `Builder.build()`: `startParseStl`, load the emitters, then the receivers, then the
   * interconnects (an empty batch when no interconnect file was set), `finishParseStl`,
   * and a kernel over the three batches. A rejected `startParseStl` and a failed read
   * propagate as exceptions; a failed read leaves the manager in `ParseStl`.
   */
  method Build(m: MathLib, events: EventManager, now: int, stl: Elapsed,
               emitterRead: StlRead, receiverRead: StlRead, interconnectRead: Option<StlRead>)
      returns (r: Result<IntersectionKernel, BuildFailure>)
    requires Lawful(m) && events.Valid()
    modifies events
    ensures events.Valid() && events.subscribers == old(events.subscribers)
    ensures old(events.state) != Init ==>
      r == Err(IllegalState) && events.state == old(events.state) && events.events == old(events.events)
    ensures old(events.state) == Init && FirstReadFailure(emitterRead, receiverRead, interconnectRead).Some? ==>
      && r == Err(ReadFailure(FirstReadFailure(emitterRead, receiverRead, interconnectRead).value))
      && events.state == ParseStl && events.events == old(events.events) + [Event(ParseStlStart, now)]
    ensures old(events.state) == Init && FirstReadFailure(emitterRead, receiverRead, interconnectRead).None? ==>
      && r.Ok? && fresh(r.value) && r.value.Valid()
      && r.value.m == m && r.value.events == events && r.value.data.Some? && r.value.emitterIndex == 0
      && Loaded(r.value.data.value.emitters, m, emitterRead.facets)
      && Loaded(r.value.data.value.receivers, m, receiverRead.facets)
      && Loaded(r.value.data.value.interconnects, m, InterconnectFacets(interconnectRead))
      && r.value.data.value.interconnectSize == |InterconnectFacets(interconnectRead)|
      && events.state == PostParseStl
      && events.events == old(events.events) + [Event(ParseStlStart, now), Event(ParseStlFinish(stl), now)]
  {
    var ok := events.StartParseStl(now);
    if !ok {
      return Err(IllegalState);
    }
    var emitters := Load(m, emitterRead);
    if emitters.Err? {
      return Err(ReadFailure(emitters.error));
    }
    var receivers := Load(m, receiverRead);
    if receivers.Err? {
      return Err(ReadFailure(receivers.error));
    }
    var interconnects := LoadInterconnects(m, interconnectRead);
    if interconnects.Err? {
      return Err(ReadFailure(interconnects.error));
    }
    ok := events.FinishParseStl(now, stl);
    var d := KernelData(emitters.value.AsColumns(), interconnects.value.size, interconnects.value.AsColumns(),
                        receivers.value.AsColumns());
    var kernel := new IntersectionKernel(m, events, d);
    return Ok(kernel);
  }
}
