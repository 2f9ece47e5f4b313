/**
 * The driver of the root `IntersectionKernel`: `calculateAll` and the `run()` it
 * executes. In this version `run()` only computes the ray from the emitter's centroid
 * to the receiver's and stores nothing, and `result` is never allocated, so the
 * consumer is handed a null array once per emitter index.
 *
 * The kernel's math methods (`doesIntersect`, `dotProduct`, `crossProduct`,
 * `edgeFrom`, `centerOf`, `magnitude`) are in `KernelMath`.
 */
module RootKernel {
  import opened KernelMath
  import opened Wrappers

  /**
   * The arrays `calculateAll` and `run()` read: the emitter centroids, the receiver
   * triangles (whose count bounds both loops) and the receiver centroids. The kernel
   * holds normals, areas and the interconnect arrays too, but nothing here reads them.
   */
  datatype KernelData = KernelData(emitterCenters: seq<Vec3>, receiverTriangles: seq<Triangle>,
                                   receiverCenters: seq<Vec3>)
  {
    /** One centroid per receiver triangle, as `Geometry.getCenters` computes them. */
    predicate WellFormed() {
      |receiverCenters| == |receiverTriangles|
    }
  }

  /** A call `calculateAll` makes on its callbacks. */
  datatype Call =
    | Accept     // resultConsumer.accept(result), with the never-allocated (null) result
    | OnComplete // completionHandler.onComplete()

  /** The exceptions `calculateAll` lets escape. */
  datatype KernelException = MathOnlyKernelException | ArrayIndexOutOfBoundsException

  /** `count` consumer calls in a row. */
  function Accepts(count: nat): (r: seq<Call>)
    ensures |r| == count && forall i :: 0 <= i < count ==> r[i] == Accept
  {
    if count == 0 then [] else Accepts(count - 1) + [Accept]
  }

  /**
   * The completion handler is called at most once, and only as the last call: the
   * calls of a run of `jobs` passes followed by the completion contain it exactly at
   * the end.
   */
  lemma CompletionLast(jobs: nat, i: nat)
    requires i < jobs + 1
    ensures (Accepts(jobs) + [OnComplete])[i] == OnComplete <==> i == jobs
  {
  }

  class IntersectionKernel {
    /** The geometry; `None` for a kernel from `buildMathOnly()`, whose arrays are all null. */
    const data: Option<KernelData>
    var emitterIndex: nat

    /** `build()`: a kernel over the batches' arrays. */
    constructor (d: KernelData)
      requires d.WellFormed()
      ensures data == Some(d) && emitterIndex == 0
    {
      data := Some(d);
      emitterIndex := 0;
    }

    /** `buildMathOnly()`: every array null. */
    constructor MathOnly()
      ensures data == None && emitterIndex == 0
    {
      data := None;
      emitterIndex := 0;
    }

    /** `run()` for receiver `receiverIndex`: the ray between the two centroids, which it then drops. */
    method Run(receiverIndex: nat) returns (ray: Vec3)
      requires data.Some? && data.value.WellFormed()
      requires receiverIndex < |data.value.receiverCenters| && emitterIndex < |data.value.emitterCenters|
      ensures Add(data.value.emitterCenters[emitterIndex], ray) == data.value.receiverCenters[receiverIndex]
    {
      ray := EdgeFrom(data.value.receiverCenters[receiverIndex], data.value.emitterCenters[emitterIndex]);
    }

    /**
     * `execute(Range.create(receiverTriangles.length))`: `run()` for every receiver
     * index. With the emitter index past the emitter centroids the first `run()`
     * throws `ArrayIndexOutOfBoundsException` (`thrown`). Otherwise `rays` are the rays
     * the passes compute and drop, in receiver order: ray `r` leads from the current
     * emitter's centroid to receiver `r`'s.
     */
    method Execute() returns (thrown: bool, rays: seq<Vec3>)
      requires data.Some? && data.value.WellFormed()
      ensures thrown <==> |data.value.receiverTriangles| > 0 && emitterIndex >= |data.value.emitterCenters|
      ensures thrown ==> rays == []
      ensures !thrown ==> |rays| == |data.value.receiverTriangles|
      ensures !thrown ==> forall r :: 0 <= r < |rays| ==>
        Add(data.value.emitterCenters[emitterIndex], rays[r]) == data.value.receiverCenters[r]
    {
      var d := data.value;
      var n := |d.receiverTriangles|;
      if n > 0 && emitterIndex >= |d.emitterCenters| {
        return true, [];
      }
      rays := [];
      var r := 0;
      while r < n
        invariant r <= n && |rays| == r
        invariant forall k :: 0 <= k < r ==> Add(d.emitterCenters[emitterIndex], rays[k]) == d.receiverCenters[k]
      {
        var ray := Run(r);
        rays := rays + [ray];
        r := r + 1;
      }
      return false, rays;
    }

    /**
     * `calculateAll(resultConsumer, completionHandler)`: `calls` are the callbacks made,
     * in order. A math-only kernel throws at once. Otherwise the emitter index runs over
     * the RECEIVER count `n`, with one consumer call per pass and the completion at the
     * end; when `n` exceeds the number `E` of emitter centroids, the pass for emitter
     * index `E` throws and nothing more is called.
     */
    method CalculateAll() returns (calls: seq<Call>, thrown: Option<KernelException>)
      requires data.Some? ==> data.value.WellFormed()
      modifies this
      ensures data.None? ==> calls == [] && thrown == Some(MathOnlyKernelException) && unchanged(this)
      ensures data.Some? ==>
        var n, e := |data.value.receiverTriangles|, |data.value.emitterCenters|;
        && (thrown.None? <==> n <= e)
        && (thrown.None? ==> calls == Accepts(n) + [OnComplete] && emitterIndex == n)
        && (thrown.Some? ==> thrown == Some(ArrayIndexOutOfBoundsException) && calls == Accepts(e) && emitterIndex == e)
    {
      if data.None? {
        return [], Some(MathOnlyKernelException);
      }
      var n := |data.value.receiverTriangles|;
      calls := [];
      emitterIndex := 0;
      while emitterIndex < n
        invariant emitterIndex <= n && emitterIndex <= |data.value.emitterCenters|
        invariant calls == Accepts(emitterIndex)
        decreases n - emitterIndex
      {
        var exception, _ := Execute();
        if exception {
          return calls, Some(ArrayIndexOutOfBoundsException);
        }
        calls := calls + [Accept];
        emitterIndex := emitterIndex + 1;
      }
      calls := calls + [OnComplete];
      thrown := None;
    }
  }
}
