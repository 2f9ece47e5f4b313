# ViewFactor engine, modelled in Dafny

ViewFactor computes radiative view factors between two triangulated surfaces, an
*emitter* and a *receiver*, read from STL files. An optional third surface, the
*interconnects*, can block the line of sight. The surfaces are loaded into triangle
batches, and the batches are copied to a GPU kernel. For each emitter triangle the
kernel computes one term per receiver triangle:

    |cos t1| * |cos t2| * A_emitter * A_receiver / (PI * r^2)

The kernel hands each emitter's row of terms to a consumer. The latest kernel sets a
term to zero when an interconnect triangle lies across the ray between the two
centroids; it tests this with a Moller-Trumbore intersection. Around the kernels sits a
pipeline of stages:

    IDLE -> INIT -> PARSE_STL -> POST_PARSE_STL -> BUFFER_TRANSFER
         -> POST_BUFFER_TRANSFER -> COMPUTATION -> POST_COMPUTATION -> IDLE

Any stage can move to EXCEPTION. The stages are driven by three managers: an event
manager that logs events and fans them out, an older event manager that dispatches
through a single worker thread, and a state manager with typed callbacks. Two logging
subscribers sit on top: `Event` renders the log as text and JSON, and `MapLogger`
keeps a status map for polling.

The repository holds three generations of the engine, and each has its own module:

| module | file | what it models |
|---|---|---|
| `KernelMath` | kernel_math.dfy | vector math of the first kernel (`dotProduct`, `crossProduct`, `edgeFrom`, `centerOf`, `magnitude`, `doesIntersect`), and `MathLib`, the square root, PI, sine and arccosine the code takes from `java.lang.Math` |
| `Batches` | batches.dfy | facets read from STL, the per-triangle row a batch stores, and `areaOf` |
| `BatchGeometry` | geometry.dfy | `viewfactor.Geometry`, the column store of `viewfactor.IntersectionKernel`; it also stands in for `viewfactor.gpu.GpuGeometry`, which the latest kernel loads and which is not part of this model |
| `GpuBatchGeometry` | gpu_geometry.dfy | `gpu.GpuGeometry`, the column store of the earlier GPU kernel |
| `RootGeometry` | root_geometry.dfy | the first engine's `Geometry`, with its lazily filled caches |
| `Contribution` | contribution.dfy | the per-pair view-factor term shared by both GPU kernels |
| `LatestIntersection` | latest_intersection.dfy | `intersectionDistance` and the occlusion test of the latest kernel |
| `LatestKernel` | latest_kernel.dfy | `viewfactor.gpu.IntersectionKernel`: `run`, `calculate`, the math-only kernel, and `Builder.build` |
| `GpuKernel` | gpu_kernel.dfy | `gpu.IntersectionKernel`: `run`, `calculate`, and the `Builder` |
| `RootKernel` | root_kernel.dfy | the first `IntersectionKernel`: `calculateAll` and `run` |
| `Pipeline` | pipeline.dfy | the stage enum, the `VALID_STATES` successor table, and the `changeState` guard |
| `Timing`, `Text` | timing.dfy, text.dfy | the elapsed-time snapshot with its "reasonable unit" search, and decimal rendering and `Joiner` |
| `Events` | events.dfy | `viewfactor.events.Event`: messages and `toJson` |
| `EventManagement` | event_manager.dfy | `viewfactor.events.EventManager` |
| `QueuedEventManagement` | queued_event_manager.dfy | `events.EventManager`, whose subscribers run on a one-thread executor |
| `StateManagement` | state_manager.dfy | `viewfactor.state.StateManager` and `ElapsedTime.toString` |
| `MapLogging` | map_logger.dfy | `MapLogger`, the polling status subscriber |
| `Wrappers` | wrappers.dfy | `Option` and `Result` |

How the model is built:

- Classes whose fields the Java code updates in place are Dafny classes:
  - the geometries, the kernels and their builders, the managers, and the logger.
  - Their methods carry `modifies` clauses.
  - The lists they grow are `seq` fields.
  - The kernels' `result` buffer is an `array<real>`.
- Doubles are reals.
- The parts of `java.lang.Math` that are used, and IEEE division by zero, are the
  fields of a `MathLib` value.
  - The proofs assume only what `Lawful` states: PI is positive, the square root of
    zero is zero, and the square root of a positive number is positive.
- A subscriber is an opaque id.
- A call on a subscriber, or a callback from a kernel, is an entry in a trace that the
  method extends.
- Clock readings, stopwatches, STL reads and number formats are parameters.

Where the code and its documentation disagree, the model follows the code:

- In both GPU kernels the emitter loop runs to the receiver count, not the emitter
  count.
- The latest kernel compares the unscaled `u` with `[0, 1]`. `CentredHitMissed`
  exhibits a real hit that it therefore misses.
- The latest kernel treats a negative distance as blocking (`BehindDistance`,
  `NegativeDistanceBlocks`).
- The earlier GPU kernel has no occlusion test at all.
- The first kernel's `run` stores nothing, so its consumer receives a `result` that was
  never allocated.

## Model

| member | source | states |
|---|---|---|
| `KernelMath.EdgeFrom` | src/main/java/IntersectionKernel.java:249-258 | the edge from `b` to `a`, added to `b`, gives back `a` |
| `KernelMath.CenterOf` | src/main/java/IntersectionKernel.java:260-270 | three times the centroid is the sum of the three vertices |
| `KernelMath.Magnitude` | src/main/java/IntersectionKernel.java:244-247 | the length is never negative, and is zero exactly when the squared norm is zero |
| `KernelMath.CrossOrthogonal` | src/main/java/IntersectionKernel.java:235-242 | the cross product is orthogonal to both arguments |
| `KernelMath.HitOnLine` | src/main/java/IntersectionKernel.java:188-214 | when det is non-zero, the scaled Moller-Trumbore coordinates `u`, `v`, `t` name one point, both on the ray and in the triangle's plane (Cramer's rule) |
| `KernelMath.DoesIntersectSound` | src/main/java/IntersectionKernel.java:188-214 | a hit reported by `doesIntersect` is real: some point of the ray lies in the triangle (`u, v >= 0`, `u + v <= 1`) |
| `KernelMath.ParallelRayMisses` | src/main/java/IntersectionKernel.java:188-214 | a ray whose det lies in the band `(-1e-8, 1e-8)` never intersects |
| `KernelMath.DoesIntersectComplete` | src/main/java/IntersectionKernel.java:188-214 | outside the parallel band, every point of the closed triangle (`a, b >= 0`, `a + b <= 1`) that lies on the line through the ray makes `doesIntersect` report a hit |
| `KernelMath.DoesIntersectExactly` | src/main/java/IntersectionKernel.java:188-214 | outside the parallel band, `doesIntersect` holds if and only if the line through the ray meets the closed triangle |
| `KernelMath.EdgeFromExample` | src/test/java/KernelMathTest.java:29-37 | the test's `edgeFrom` value |
| `KernelMath.CenterOfExample` | src/test/java/KernelMathTest.java:17-27 | the test's `centerOf` value |
| `KernelMath.CrossProductExample` | src/test/java/KernelMathTest.java:45-62 | the test's cross-product value |
| `KernelMath.DotProductExample` | src/test/java/KernelMathTest.java:45-62 | the test's dot-product value |
| `Batches.AreaIsHalfNormalLength` | src/main/java/viewfactor/Geometry.java:68-81 | `areaOf` is half the length of `(B-A) x (C-A)`: never negative, and zero exactly when that cross product is zero |
| `Batches.DegenerateTriangleHasNoArea` | src/main/java/gpu/GpuGeometry.java:123-136 | a triangle with two equal vertices has area zero |
| `Batches.RowDeterminesTriangle` | src/main/java/viewfactor/Geometry.java:147-182 | a stored row loses nothing about its triangle: B and C are A plus the stored edges, three times the stored centre is A+B+C, and the area is non-negative |
| `BatchGeometry.ColumnLength` | src/main/java/viewfactor/Geometry.java:185-212 | columns are never shorter than the triangle count and never empty; they hold exactly `n` entries when `n > 0` |
| `BatchGeometry.Geometry.constructor` | src/main/java/viewfactor/Geometry.java:45-46 | a new batch has size zero and no columns |
| `BatchGeometry.Geometry.InitWithSize` | src/main/java/viewfactor/Geometry.java:185-212 | the size is `n`; every column has `ColumnLength(n)` rows, all blank |
| `BatchGeometry.Geometry.Empty` | src/main/java/viewfactor/Geometry.java:52-55 | size zero, with columns of length one holding one blank row |
| `BatchGeometry.Geometry.Store` | src/main/java/viewfactor/Geometry.java:147-182 | row `index` becomes `row`; every other row and the size are unchanged |
| `BatchGeometry.Geometry.StoreAll` | src/main/java/viewfactor/Geometry.java:147-182 | the loop over the delivered facets: row `k` holds `rows[k]`, every later row (the undelivered ones and the padding row) stays blank, and the size is kept |
| `BatchGeometry.Geometry.From` | src/main/java/viewfactor/Geometry.java:57-64 | a reader that cannot be built gives `Err` with its reason and changes nothing; otherwise the size is the declared facet count, row `k` is derived from delivered facet `k`, the rest are blank, and a failure during the loop or at `close` gives `Err` after those rows are stored |
| `GpuBatchGeometry.GpuGeometry.constructor` | src/main/java/gpu/GpuGeometry.java:47-48 | a new batch has no triangles and no columns |
| `GpuBatchGeometry.GpuGeometry.InitWithSize` | src/main/java/gpu/GpuGeometry.java:50-74 | the triangle count is `n`, and every column has `n` blank rows |
| `GpuBatchGeometry.GpuGeometry.Empty` | src/main/java/gpu/GpuGeometry.java:76-79 | no triangles, and empty columns |
| `GpuBatchGeometry.GpuGeometry.Store` | src/main/java/gpu/GpuGeometry.java:86-113 | row `index` becomes `row`; everything else is unchanged |
| `GpuBatchGeometry.GpuGeometry.StoreAll` | src/main/java/gpu/GpuGeometry.java:86-113 | the loop over the delivered facets: row `k` holds `rows[k]` and every later row stays blank |
| `GpuBatchGeometry.GpuGeometry.From` | src/main/java/gpu/GpuGeometry.java:81-119 | a file that cannot be opened or whose header cannot be parsed gives `Err` and changes nothing; otherwise one row per declared facet, row `k` derived from delivered facet `k`, the rest blank, and a failure during the loop or at `close` gives `Err` after those rows are stored |
| `RootGeometry.Geometry.constructor` | src/main/java/Geometry.java:23-26 | nothing is loaded and nothing is cached |
| `RootGeometry.Geometry.From` | src/main/java/Geometry.java:28-44 | the triangle count is the declared facet count; delivered facet `i` is stored at index `i` and the rest stay zero; a file that cannot be opened changes nothing, a failure during the loop or at `close` gives `Err` after that; the three caches are never touched |
| `RootGeometry.Geometry.GetCenters` | src/main/java/Geometry.java:54-62 | the first call caches the centroid of every loaded triangle; later calls return the cache unchanged |
| `RootGeometry.Geometry.GetAreas` | src/main/java/Geometry.java:64-72 | the first call caches the angle-based area of every triangle; later calls return the cache |
| `RootGeometry.Geometry.GetEdges` | src/main/java/Geometry.java:74-84 | the first call caches edges that lead from A to B and from A to C; later calls return the cache |
| `RootGeometry.CentersSurviveReload` | src/main/java/Geometry.java:28-62 | after a second `from`, `getCenters` still returns the first file's centroids |
| `Contribution.NonzeroHasMagnitude` | src/main/java/viewfactor/gpu/IntersectionKernel.java:438-441 | only the zero vector has length zero |
| `Contribution.TermNonnegative` | src/main/java/viewfactor/gpu/IntersectionKernel.java:359-390 | the final division is non-negative for non-negative cosines and areas and a positive ray length |
| `Contribution.DenominatorsPositive` | src/main/java/viewfactor/gpu/IntersectionKernel.java:359-390 | for non-zero normals and distinct centroids, none of the three divisions divides by zero: both `|n| |ray|` and `PI r r` are positive |
| `Contribution.ZeroNormalCosine` | src/main/java/viewfactor/gpu/IntersectionKernel.java:359-380 | a zero normal makes the cosine the library's `0.0 / 0.0` (NaN in Java), whatever the ray |
| `Contribution.ContributionNonnegative` | src/main/java/viewfactor/gpu/IntersectionKernel.java:359-390 | for non-zero normals, non-negative areas and distinct centroids, the pair's term is non-negative |
| `Contribution.ZeroAreaReceivesNothing` | src/main/java/viewfactor/gpu/IntersectionKernel.java:359-390 | a receiver with zero area gets a zero term, when the normals are non-zero and the centroids distinct |
| `Contribution.Reciprocity` | src/main/java/viewfactor/gpu/IntersectionKernel.java:359-390 | swapping emitter and receiver gives the same term (`A1 F12 == A2 F21`) when the centroids differ and both normals are non-zero |
| `LatestIntersection.DistanceZeroCases` | src/main/java/viewfactor/gpu/IntersectionKernel.java:394-436 | no hit for a det in the parallel band, or for an unscaled `u` outside `[0, 1]` |
| `LatestIntersection.DistanceLiesOnRay` | src/main/java/viewfactor/gpu/IntersectionKernel.java:394-436 | a non-zero distance `t` puts `orig + t ray` in the triangle's plane, at the coordinates the kernel tests |
| `LatestIntersection.AgreesWithDoesIntersectAtUnitDet` | src/main/java/viewfactor/gpu/IntersectionKernel.java:394-436 | when det is 1, a hit is reported exactly when the first kernel's `doesIntersect` holds and the distance is non-zero |
| `LatestIntersection.CentredHitMissed` | src/main/java/viewfactor/gpu/IntersectionKernel.java:394-436 | a ray that does cross the triangle, as `doesIntersect` confirms, gets distance 0, because the unscaled `u` is -2 |
| `LatestIntersection.BehindDistance` | src/main/java/viewfactor/gpu/IntersectionKernel.java:394-436 | a triangle behind the ray's origin gets a distance of -1 |
| `LatestIntersection.NegativeDistanceBlocks` | src/main/java/viewfactor/gpu/IntersectionKernel.java:349-357 | the occlusion test accepts every negative distance |
| `LatestKernel.Pass` | src/main/java/viewfactor/gpu/IntersectionKernel.java:340-391 | one row per pass, with the stored result for each receiver |
| `LatestKernel.Passes` | src/main/java/viewfactor/gpu/IntersectionKernel.java:324-329 | one snapshot per emitter index, in order |
| `LatestKernel.PassesHoldResults` | src/main/java/viewfactor/gpu/IntersectionKernel.java:324-329 | snapshot `j`, entry `k`, is what `run` stores for emitter `j` and receiver `k` |
| `LatestKernel.ResultNonnegative` | src/main/java/viewfactor/gpu/IntersectionKernel.java:340-391 | with non-zero normals, non-negative areas and distinct centroids, every stored result is non-negative |
| `LatestKernel.NoInterconnectsNoOcclusion` | src/main/java/viewfactor/gpu/IntersectionKernel.java:349-357 | with no interconnect triangles, `run` stores the plain term |
| `LatestKernel.LoadedAreasNonnegative` | src/main/java/viewfactor/Geometry.java:147-182 | every area a load stores, padding included, is non-negative |
| `LatestKernel.LoadedResultNonnegative` | src/main/java/viewfactor/gpu/IntersectionKernel.java:340-391 | for batches loaded from STL, the result for two facets with non-zero normals and distinct centroids is non-negative |
| `LatestKernel.IntersectionKernel.constructor` | src/main/java/viewfactor/gpu/IntersectionKernel.java:147-219 | the kernel holds the given batches and event manager |
| `LatestKernel.IntersectionKernel.ForMathOnly` | src/main/java/viewfactor/gpu/IntersectionKernel.java:221-258 | no geometry and no event manager |
| `LatestKernel.IntersectionKernel.Run` | src/main/java/viewfactor/gpu/IntersectionKernel.java:340-391 | `result[r]` becomes zero when the first blocking interconnect is found, otherwise the term; no other entry changes |
| `LatestKernel.IntersectionKernel.Execute` | src/main/java/viewfactor/gpu/IntersectionKernel.java:324-326 | `result` becomes the pass row; an index-out-of-bounds exception is raised exactly when the emitter index is past the emitters and there is a receiver |
| `LatestKernel.IntersectionKernel.Calculate` | src/main/java/viewfactor/gpu/IntersectionKernel.java:299-334 | a math-only kernel fails with a null pointer in its handler. Otherwise: one snapshot per emitter index up to the receiver count; the event log gets the transfer events, one progress event per job, then either the finish or the exception event |
| `LatestKernel.IntersectionKernel.TransferBuffers` | src/main/java/viewfactor/gpu/IntersectionKernel.java:303-323 | a `result` with one entry per receiver, and the three transfer events; a rejected stage changes nothing |
| `LatestKernel.IntersectionKernel.Compute` | src/main/java/viewfactor/gpu/IntersectionKernel.java:324-333 | the snapshots are `Passes` up to the receiver count, or up to the emitter count when the index runs out of bounds; progress events are logged per job |
| `LatestKernel.FirstReadFailure` | src/main/java/viewfactor/gpu/IntersectionKernel.java:45-50 | the reason of the first file that fails to read, in the order emitters, receivers, interconnects, or none when all read completely |
| `LatestKernel.ColumnsLoaded` | src/main/java/viewfactor/gpu/IntersectionKernel.java:52-87 | a loaded batch's columns, as the getters hand them over, are the rows derived from its facets |
| `LatestKernel.Load` | src/main/java/viewfactor/gpu/IntersectionKernel.java:46-47 | a fresh batch loaded from the file, or the reader's error whenever the read fails |
| `LatestKernel.LoadInterconnects` | src/main/java/viewfactor/gpu/IntersectionKernel.java:48-49 | an empty batch when no interconnect file is set, otherwise a load |
| `LatestKernel.Build` | src/main/java/viewfactor/gpu/IntersectionKernel.java:44-88 | a rejected `startParseStl` changes nothing; a read failure stops after `startParseStl`; otherwise a kernel over the loaded columns, with the two parse events logged |
| `GpuKernel.Pass` | src/main/java/gpu/IntersectionKernel.java:292-336 | the latest kernel's pass over the same batches with no interconnect triangle: one row per pass, entry `r` the plain term for receiver `r` |
| `GpuKernel.Accepts` | src/main/java/gpu/IntersectionKernel.java:279-283 | one consumer call per emitter index |
| `GpuKernel.AcceptsHoldResults` | src/main/java/gpu/IntersectionKernel.java:279-283 | call `j` hands over emitter `j`'s area and, for each receiver `k`, what `run` stores for the pair |
| `GpuKernel.AgreesWithLatestWithoutInterconnects` | src/main/java/gpu/IntersectionKernel.java:292-336 | stores what the latest kernel stores when the latest kernel has no interconnects |
| `GpuKernel.SwappedRolesSameResult` | src/main/java/gpu/IntersectionKernel.java:292-336 | exchanging the emitter and receiver batches transposes the results |
| `GpuKernel.ResultNonnegative` | src/main/java/gpu/IntersectionKernel.java:292-336 | every stored result is non-negative for non-zero normals, non-negative areas and distinct centroids |
| `GpuKernel.IntersectionKernel.constructor` | src/main/java/gpu/IntersectionKernel.java:145-212 | the kernel holds the given batches |
| `GpuKernel.IntersectionKernel.ForMathOnly` | src/main/java/gpu/IntersectionKernel.java:215-249 | every array is null |
| `GpuKernel.IntersectionKernel.Run` | src/main/java/gpu/IntersectionKernel.java:292-336 | `result[r]` becomes the term for the current emitter; no other entry changes |
| `GpuKernel.IntersectionKernel.Execute` | src/main/java/gpu/IntersectionKernel.java:280 | `result` becomes the pass row, or the exception is raised when the emitter index runs out of bounds |
| `GpuKernel.IntersectionKernel.Calculate` | src/main/java/gpu/IntersectionKernel.java:255-286 | a math-only kernel throws. Otherwise a fresh `result` sized by the receiver count; the calls are `Accepts` followed by the completion, or, when the emitters run out first, `Accepts` up to the emitter count and the index exception |
| `GpuKernel.IntersectionKernel.Compute` | src/main/java/gpu/IntersectionKernel.java:279-283 | the consumer calls of the loop, in emitter order |
| `GpuKernel.ColumnsFilled` | src/main/java/gpu/GpuGeometry.java:139-202 | a filled batch's getters hand over the rows derived from its facets |
| `GpuKernel.FilledAreasNonnegative` | src/main/java/gpu/GpuGeometry.java:123-136 | every area of a filled batch is non-negative |
| `GpuKernel.Builder.constructor` | src/main/java/gpu/IntersectionKernel.java:23-26 | no batch is set |
| `GpuKernel.Builder.Load` | src/main/java/gpu/IntersectionKernel.java:29 | a fresh batch filled from the file, or the reader's error whenever the read fails |
| `GpuKernel.Builder.SetEmitterFile` | src/main/java/gpu/IntersectionKernel.java:28-31 | loads the emitters immediately; a failure leaves the builder unchanged |
| `GpuKernel.Builder.SetInterconnectFile` | src/main/java/gpu/IntersectionKernel.java:33-36 | loads the interconnects immediately; a failure leaves the builder unchanged |
| `GpuKernel.Builder.SetReceiverFile` | src/main/java/gpu/IntersectionKernel.java:38-41 | loads the receivers immediately; a failure leaves the builder unchanged |
| `GpuKernel.Builder.Build` | src/main/java/gpu/IntersectionKernel.java:43-82 | an empty interconnect batch is used when none was set; `None` (a null-pointer failure) when emitters or receivers are missing; otherwise a kernel over the three batches' columns |
| `RootKernel.Accepts` | src/main/java/IntersectionKernel.java:141-154 | `count` consumer calls, each with the unallocated result |
| `RootKernel.CompletionLast` | src/main/java/IntersectionKernel.java:141-154 | the completion handler is called once, as the last call |
| `RootKernel.IntersectionKernel.constructor` | src/main/java/IntersectionKernel.java:44-58 | a kernel over the given data, at emitter index zero |
| `RootKernel.IntersectionKernel.MathOnly` | src/main/java/IntersectionKernel.java:60-73 | no data |
| `RootKernel.IntersectionKernel.Run` | src/main/java/IntersectionKernel.java:160-164 | the ray leads from the emitter's centroid to the receiver's |
| `RootKernel.IntersectionKernel.Execute` | src/main/java/IntersectionKernel.java:141-154 | throws exactly when there is a receiver and the emitter index is past the emitters; otherwise one ray per receiver, ray `r` leading from the emitter's centroid to receiver `r`'s |
| `RootKernel.IntersectionKernel.CalculateAll` | src/main/java/IntersectionKernel.java:141-154 | math-only throws; otherwise completes exactly when the receivers are no more than the emitters, with one consumer call per index then the completion, else stops with the index exception after `E` calls |
| `Pipeline.ValidStatesTotal` | src/main/java/viewfactor/events/EventManager.java:33-43 | every stage has a successor in the table |
| `Pipeline.AcceptsExactly` | src/main/java/viewfactor/events/EventManager.java:150-153 | the guard accepts exactly the successor and `EXCEPTION` |
| `Pipeline.ExceptionAlwaysAccepted` | src/main/java/viewfactor/events/EventManager.java:150-153 | `exception()` is accepted from every stage |
| `Pipeline.LeavingException` | src/main/java/viewfactor/events/EventManager.java:33-43 | from `EXCEPTION` only `INIT` (or `EXCEPTION` again) is accepted |
| `Pipeline.NamesDistinct` | src/main/java/viewfactor/events/EventManager.java:20-30 | distinct stages print distinct names |
| `Pipeline.CycleFollowsTable` | src/main/java/viewfactor/events/EventManager.java:33-43 | the table walks the eight normal stages and closes the cycle |
| `Pipeline.RunsFollowCycle` | src/main/java/viewfactor/events/EventManager.java:150-153 | a run from `IDLE` without exceptions visits the stages in cycle order |
| `Text.NatToString` | src/main/java/viewfactor/events/Event.java:139 | non-empty decimal digits, with no leading zero |
| `Text.IntToString` | src/main/java/viewfactor/events/Event.java:139 | non-empty, and starts with `-` exactly for negatives |
| `Text.ParseNatToString` | src/main/java/viewfactor/events/Event.java:46 | rendered digits parse back to the number |
| `Text.IntToStringRoundTrip` | src/main/java/viewfactor/events/Event.java:139 | a rendered integer parses back to itself |
| `Text.Join` | src/main/java/MapLogger.java:37 | joining nothing gives the empty string, and joining one element gives that element |
| `Text.JoinSeparatorCount` | src/main/java/MapLogger.java:37 | when no element contains the separator, the joined text holds one separator fewer than there are elements |
| `Timing.FirstWithinLimit` | src/main/java/viewfactor/events/Event.java:41-47 | the first index whose reading is at most 9999: every earlier one reads more, and `None` means every unit reads more |
| `Timing.ReasonableUnit` | src/main/java/viewfactor/events/Event.java:40-49 | the first unit in declaration order that reads at most 9999; `None` exactly when none does |
| `Timing.UnitTextReadsBack` | src/main/java/viewfactor/events/Event.java:46 | the digits before the space parse back to the reading, and the text ends with the unit name and `.` |
| `Timing.ReasonableUnitFound` | src/main/java/viewfactor/events/Event.java:40-49 | on a real stopwatch, the search fails exactly when the day count exceeds 9999 |
| `Timing.NanosecondsPreferred` | src/main/java/viewfactor/events/Event.java:41-46 | nanoseconds are chosen whenever they fit |
| `Events.ReasonableTimeUnit` | src/main/java/viewfactor/events/Event.java:40-49 | the text for the first fitting unit, or the error text when no unit fits |
| `Events.ToJson` | src/main/java/viewfactor/events/Event.java:32-38 | exactly the keys `type`, `timestamp`, `message` (when there is a message) and the two job counts (for progress events), with their values |
| `Events.MessagePresent` | src/main/java/viewfactor/events/Event.java:160-184 | only an exception without a message has no message; `Info` shows its text verbatim |
| `Events.ProgressMessageEnding` | src/main/java/viewfactor/events/Event.java:137-141 | a progress message ends with `(current/numJobs).` |
| `Events.FractionReadsBack` | src/main/java/viewfactor/events/Event.java:139 | both job counts can be read back from the fraction |
| `Events.FinishMessageHasUnit` | src/main/java/viewfactor/events/Event.java:58-69 | a stopwatch under 9999 days never shows the error text, and its duration ends in `.` |
| `EventManagement.FanOut` | src/main/java/viewfactor/events/EventManager.java:155-158 | one call per subscriber, in list order |
| `EventManagement.ProgressEvents` | src/main/java/viewfactor/events/EventManager.java:121-124 | one progress event per job, in job order |
| `EventManagement.EventManager.constructor` | src/main/java/viewfactor/events/EventManager.java:57-65 | idle, nothing logged, and the console logger is the only subscriber |
| `EventManagement.EventManager.RegisterSubscriber` | src/main/java/viewfactor/events/EventManager.java:67-69 | the subscriber is appended; the log and the calls so far are unchanged |
| `EventManagement.EventManager.RecordAndAlert` | src/main/java/viewfactor/events/EventManager.java:155-158 | the event is logged and sent to each current subscriber |
| `EventManagement.EventManager.Move` | src/main/java/viewfactor/events/EventManager.java:150-153 | accepted exactly when the guard allows; otherwise nothing changes |
| `EventManagement.EventManager.Start` | src/main/java/viewfactor/events/EventManager.java:72-84 | accepted exactly from `IDLE` or `EXCEPTION`; moves to `INIT` and logs `JobStart` |
| `EventManagement.EventManager.StartParseStl` | src/main/java/viewfactor/events/EventManager.java:86-91 | accepted exactly from `INIT` |
| `EventManagement.EventManager.FinishParseStl` | src/main/java/viewfactor/events/EventManager.java:93-98 | accepted exactly from `PARSE_STL` |
| `EventManagement.EventManager.StartBufferTransfer` | src/main/java/viewfactor/events/EventManager.java:100-105 | accepted exactly from `POST_PARSE_STL` |
| `EventManagement.EventManager.FinishBufferTransfer` | src/main/java/viewfactor/events/EventManager.java:107-112 | accepted exactly from `BUFFER_TRANSFER` |
| `EventManagement.EventManager.StartComputation` | src/main/java/viewfactor/events/EventManager.java:114-119 | accepted exactly from `POST_BUFFER_TRANSFER` |
| `EventManagement.EventManager.UpdateComputationProgress` | src/main/java/viewfactor/events/EventManager.java:121-124 | accepted in any state, which it keeps |
| `EventManagement.EventManager.FinishComputation` | src/main/java/viewfactor/events/EventManager.java:126-131 | accepted exactly from `COMPUTATION` |
| `EventManagement.EventManager.Finish` | src/main/java/viewfactor/events/EventManager.java:133-138 | accepted exactly from `POST_COMPUTATION`; back to `IDLE` |
| `EventManagement.EventManager.Info` | src/main/java/viewfactor/events/EventManager.java:140-143 | logged in any state, which it keeps |
| `EventManagement.EventManager.ReportException` | src/main/java/viewfactor/events/EventManager.java:145-148 | accepted in any state, and ends in `EXCEPTION` |
| `EventManagement.StartAndParse` | src/main/java/viewfactor/events/EventManager.java:72-98 | from `IDLE` or `EXCEPTION`, the three calls are accepted and log their three events |
| `EventManagement.TransferAndStartComputation` | src/main/java/viewfactor/events/EventManager.java:100-119 | from `POST_PARSE_STL`, the three calls are accepted and log their three events |
| `EventManagement.ReportProgress` | src/main/java/viewfactor/events/EventManager.java:121-124 | one progress event per job, with the state kept at `COMPUTATION` |
| `EventManagement.FullRun` | src/main/java/viewfactor/gpu/IntersectionKernel.java:45-332 | a whole run from `IDLE` (`start`, the stages `build` and `calculate` move through, `finish`, framed as `ViewFactorCalculator.run` frames them) is accepted throughout, ends `IDLE`, and logs every stage's events in order |
| `QueuedEventManagement.EventManager.constructor` | src/main/java/events/EventManager.java:60-66 | idle, with no subscribers, no log and no queue |
| `QueuedEventManagement.EventManager.RegisterSubscriber` | src/main/java/events/EventManager.java:68-70 | the subscriber is appended; nothing else changes |
| `QueuedEventManagement.EventManager.RecordAndAlert` | src/main/java/events/EventManager.java:165-168 | the event is logged and its dispatch task queued |
| `QueuedEventManagement.EventManager.RunNextTask` | src/main/java/events/EventManager.java:167 | the oldest task sends its event to the subscribers of that moment; with no task, nothing happens |
| `QueuedEventManagement.EventManager.Move` | src/main/java/events/EventManager.java:160-163 | accepted exactly when the guard allows; otherwise nothing changes |
| `QueuedEventManagement.EventManager.Start` | src/main/java/events/EventManager.java:72-84 | accepted exactly from `IDLE` or `EXCEPTION` |
| `QueuedEventManagement.EventManager.StartParseStl` | src/main/java/events/EventManager.java:86-91 | accepted exactly from `INIT` |
| `QueuedEventManagement.EventManager.FinishParseStl` | src/main/java/events/EventManager.java:93-98 | accepted exactly from `PARSE_STL` |
| `QueuedEventManagement.EventManager.StartBufferTransfer` | src/main/java/events/EventManager.java:100-105 | accepted exactly from `POST_PARSE_STL` |
| `QueuedEventManagement.EventManager.FinishBufferTransfer` | src/main/java/events/EventManager.java:107-112 | accepted exactly from `BUFFER_TRANSFER` |
| `QueuedEventManagement.EventManager.StartComputation` | src/main/java/events/EventManager.java:114-119 | accepted exactly from `POST_BUFFER_TRANSFER` |
| `QueuedEventManagement.EventManager.UpdateComputationProgress` | src/main/java/events/EventManager.java:121-124 | accepted in any state, which it keeps |
| `QueuedEventManagement.EventManager.FinishComputation` | src/main/java/events/EventManager.java:126-131 | accepted exactly from `COMPUTATION` |
| `QueuedEventManagement.EventManager.Finish` | src/main/java/events/EventManager.java:133-138 | accepted exactly from `POST_COMPUTATION` |
| `QueuedEventManagement.EventManager.Info` | src/main/java/events/EventManager.java:140-143 | logged in any state |
| `QueuedEventManagement.EventManager.ReportException` | src/main/java/events/EventManager.java:145-149 | ends in `EXCEPTION` from any state |
| `QueuedEventManagement.EventManager.RunAllTasks` | src/main/java/events/EventManager.java:151-158 | once the worker drains the queue, every logged event has been sent, in log order |
| `StateManagement.Broadcast` | src/main/java/viewfactor/state/StateManager.java:163-166 | one callback per subscriber, in list order |
| `StateManagement.ReceivedBroadcast` | src/main/java/viewfactor/state/StateManager.java:163-166 | a broadcast reaches `x` once per registration of `x` |
| `StateManagement.StageSeenInOrder` | src/main/java/viewfactor/state/StateManager.java:83-89 | a subscriber registered once sees the state change first, then the stage callback |
| `StateManagement.ElapsedTextUnit` | src/main/java/viewfactor/state/StateManager.java:180-189 | the text for the first fitting unit; the seconds fallback only when no unit fits |
| `StateManagement.ElapsedTimeToString` | src/main/java/viewfactor/state/StateManager.java:180-189 | the loop returns `ElapsedText` |
| `StateManagement.StateManager.constructor` | src/main/java/viewfactor/state/StateManager.java:56-63 | idle; the console logger is subscribed and told the state is `IDLE` |
| `StateManagement.StateManager.RegisterSubscriber` | src/main/java/viewfactor/state/StateManager.java:65-67 | the subscriber is appended |
| `StateManagement.StateManager.Notify` | src/main/java/viewfactor/state/StateManager.java:153-155 | one callback per current subscriber; the state is unchanged |
| `StateManagement.StateManager.ChangeState` | src/main/java/viewfactor/state/StateManager.java:163-166 | the new state, announced to every subscriber |
| `StateManagement.StateManager.Stage` | src/main/java/viewfactor/state/StateManager.java:83-89 | when the check fails, nothing changes; otherwise the move is announced, then the stage callback |
| `StateManagement.StateManager.Start` | src/main/java/viewfactor/state/StateManager.java:70-80 | accepted exactly from `IDLE` or `EXCEPTION` |
| `StateManagement.StateManager.StartParseStl` | src/main/java/viewfactor/state/StateManager.java:83-89 | accepted exactly from `INIT` |
| `StateManagement.StateManager.FinishParseStl` | src/main/java/viewfactor/state/StateManager.java:92-98 | accepted exactly from `PARSE_STL` |
| `StateManagement.StateManager.StartBufferTransfer` | src/main/java/viewfactor/state/StateManager.java:101-107 | accepted exactly from `POST_PARSE_STL` |
| `StateManagement.StateManager.FinishBufferTransfer` | src/main/java/viewfactor/state/StateManager.java:110-116 | accepted exactly from `BUFFER_TRANSFER` |
| `StateManagement.StateManager.StartComputation` | src/main/java/viewfactor/state/StateManager.java:119-125 | accepted exactly from `POST_BUFFER_TRANSFER` |
| `StateManagement.StateManager.UpdateComputationProgress` | src/main/java/viewfactor/state/StateManager.java:128-132 | accepted only during `COMPUTATION`; no state change is announced |
| `StateManagement.StateManager.FinishComputation` | src/main/java/viewfactor/state/StateManager.java:135-141 | accepted exactly from `COMPUTATION` |
| `StateManagement.StateManager.Finish` | src/main/java/viewfactor/state/StateManager.java:144-150 | accepted exactly from `POST_COMPUTATION` |
| `StateManagement.StateManager.Info` | src/main/java/viewfactor/state/StateManager.java:153-155 | no precondition and no state change |
| `StateManagement.StateManager.ReportException` | src/main/java/viewfactor/state/StateManager.java:158-161 | always ends in `EXCEPTION`, then `onException` |
| `StateManagement.StagePreconditionsFollowTable` | src/main/java/viewfactor/state/StateManager.java:70-150 | each stage method's own check is exactly the event managers' successor table |
| `MapLogging.AppendedCount` | src/main/java/MapLogger.java:46-114 | only `onStateChange` appends nothing; only `onComputationFinish` appends two lines |
| `MapLogging.TaggedLines` | src/main/java/MapLogger.java:100-109 | info and error lines are the tag followed by the text |
| `MapLogging.MapLogger.constructor` | src/main/java/MapLogger.java:26-33 | no messages, `INIT`, no failure, result -1, percentage `format(0)` |
| `MapLogging.MapLogger.Get` | src/main/java/MapLogger.java:35-44 | the five entries, messages joined with commas; then the messages are cleared and nothing else changes |
| `MapLogging.MapLogger.OnStart` | src/main/java/MapLogger.java:46-52 | the status is reset and the start line appended |
| `MapLogging.MapLogger.OnStop` | src/main/java/MapLogger.java:54-57 | only the stop line is appended |
| `MapLogging.MapLogger.OnParseStlStart` | src/main/java/MapLogger.java:59-62 | only its line is appended |
| `MapLogging.MapLogger.OnParseStlFinish` | src/main/java/MapLogger.java:64-67 | only its line is appended |
| `MapLogging.MapLogger.OnBufferTransferStart` | src/main/java/MapLogger.java:69-72 | only its line is appended |
| `MapLogging.MapLogger.OnBufferTransferFinish` | src/main/java/MapLogger.java:74-77 | only its line is appended |
| `MapLogging.MapLogger.OnComputationStart` | src/main/java/MapLogger.java:79-82 | only its line is appended |
| `MapLogging.MapLogger.OnComputationProgress` | src/main/java/MapLogger.java:84-90 | one progress line, and the percentage is updated |
| `MapLogging.MapLogger.OnComputationFinish` | src/main/java/MapLogger.java:92-98 | two lines, percentage `100%`, and the result is kept |
| `MapLogging.MapLogger.OnInfo` | src/main/java/MapLogger.java:100-103 | only the info line is appended |
| `MapLogging.MapLogger.OnException` | src/main/java/MapLogger.java:105-109 | an error line, and the failure flag is raised |
| `MapLogging.MapLogger.OnStateChange` | src/main/java/MapLogger.java:111-114 | the state is recorded and nothing is appended |
| `MapLogging.MapLogger.Handle` | src/main/java/MapLogger.java:46-114 | any callback appends its lines and leaves the whole status as that callback sets it: state, failure flag, percentage (`0`, the formatted fraction, or `100%`) and result (`-1` or the finished value) |
| `MapLogging.HandleAll` | src/main/java/MapLogger.java:46-114 | a sequence of callbacks appends all their lines, in order, and leaves the status the callbacks set one after the other |
| `MapLogging.FailureAfterAll` | src/main/java/MapLogger.java:46-114 | after a batch of callbacks the failure flag is up exactly when an exception was reported after the last `onStart`, or it was up before and no `onStart` came |
| `MapLogging.AllAppendedSplit` | src/main/java/MapLogger.java:46-114 | two batches of callbacks append their lines one batch after the other |
| `MapLogging.PollAfter` | src/main/java/MapLogger.java:35-44 | the first `get` returns every line since the last poll and the status the callbacks left; an immediate second `get` returns no messages and the same status |

## Left out

- I/O: STL parsing and file access are out of scope. A read is a parameter: the
  facets in file order; the reason a reader could not be built; or the facet count
  the header declared, the facets delivered before a failure, and its reason.
- Aparapi: `put`, `get` and `setExplicit` copy buffers to and from the device, and they
  are not modelled. `execute(Range.create(n))` is modelled as a sequential loop over
  `run()` for indices `0 .. n - 1`.
- Floating point: doubles are reals, with no rounding. Square root, PI, sine and
  arccosine are fields of `MathLib`, and division by zero is `MathLib.overZero`. The
  inputs of the kernel tests are checked against their exact real-arithmetic values;
  the Java tests compare with a tolerance.
- NaN: `MathLib.overZero` is an arbitrary real, not NaN, so a NaN's propagation
  through the sign flips and the final product is not modelled. Java's `0.0 / 0.0`
  arises for a zero normal (`ZeroNormalCosine`) or coincident centroids.
- `Contribution.ContributionNonnegative`, `Contribution.ZeroAreaReceivesNothing`,
  `LatestKernel.ResultNonnegative`, `LatestKernel.LoadedResultNonnegative` and
  `GpuKernel.ResultNonnegative`: stated only for non-zero normals and distinct
  centroids, because otherwise Java stores NaN. The blank padding row of an empty
  batch has a zero normal.
- `LatestKernel.Build`, `LatestKernel.Load`, `LatestKernel.LoadInterconnects`,
  `LatestKernel.ColumnsLoaded`: the latest kernel loads its batches through
  `viewfactor.gpu.GpuGeometry`, which is not part of this model. `viewfactor.Geometry`
  (`BatchGeometry`) stands in for it, so the single blank padding row of an empty batch
  comes from `viewfactor.Geometry.empty()`.
- `QueuedEventManagement`: `events.Event`, the event class of the older manager, is not
  part of this model. The event kinds of `viewfactor.events.Event` (`Events`) stand in
  for it.
- Per-axis arrays: the code stores one `double[]` per axis; the model keeps one column
  of vectors per quantity.
- Stopwatches, the wall clock (`System.currentTimeMillis`), `DecimalFormat` and Java's
  rendering of a `double` are parameters: an elapsed-time snapshot, a `now` value, and
  `Formats`.
- `Event.getDateTime`, the `SimpleDateFormat` rendering of an event's timestamp, is not
  modelled. Only the console and file loggers call it, and they are not part of this
  model.
- Subscriber objects are opaque ids, and a call on one is a trace entry. What a
  subscriber does with the call is not part of this model.
- ThreadedAdder, the Guice modules, Application, Main, ServerConnection and the
  console, file and remote loggers are not part of this model.
- `QueuedEventManagement.EventManager.RunAllTasks`: the worker is drained in the order
  of the queue. The five-hour `awaitTermination` timeout and its `InterruptedException`
  are not modelled. Concurrent interleavings of the worker with new registrations are
  not modelled either; only the subscriber list when each task runs is.
- Snapshots: what the latest kernel and the earlier GPU kernel hand to the consumer is
  a copy of `result`. In Java it is the same array, overwritten on the next pass; a
  consumer that keeps it sees it change. Aliasing between the builder's arrays and the
  kernel is not modelled either.
- `LatestKernel.Build`: the builder's `set*Reader` setters only store a reader. They
  are modelled as `build`'s parameters, not as methods.
- `LatestKernel.IntersectionKernel.Calculate`: the message of the index exception is a
  parameter.
- `GpuKernel.Builder.Build`: a missing emitter or receiver batch throws a
  `NullPointerException` in Java. Here it is `None`.
- `RootKernel.IntersectionKernel.CalculateAll`: `get(result)` on the never-allocated
  array is taken to change nothing, and a consumer call carries no data.
- `RootKernel.IntersectionKernel.constructor`: `Builder.build` and `buildMathOnly` are
  modelled only as the kernel's two constructors. Their loads through the root
  `Geometry` are modelled separately, in `RootGeometry`.
- The root kernel's `areaOf` and `angleBetween` are modelled as functions over
  `MathLib`'s sine and arccosine, and no property of them is proved.
- `RootGeometry.Geometry.GetAreas`: the cached areas are stated through those functions
  and no further.
