# Grey Wolf Optimizer visualisation: a Dafny model of its core

This project models three parts of gwo-visualization.

- **`GWO::optimize` (module `Gwo`).** The Grey Wolf Optimizer. It samples a pack of `numWolves` points in the box `[minPt, maxPt]` and ranks the pack by distance to the target `bestSolution`. It then runs `numIterations` rounds. In each round every wolf moves to the mean of the pulls of the three best-ranked wolves (alpha, beta, delta), and the pack is ranked again. One snapshot is recorded per ranking.
- **The corex `Scene` base class (module `CoreScene`).** It holds two 32-entry tables of layer flags and the scene's entity list. It also holds the per-entity components of the entity registry.
- **The control state of `MainScene` (module `MainScene`).** This is the iteration index on display (clamped when edited, wrapping on `<` and `>`), the flashing target marker, the regeneration of the target position, and the close handler.

Module `CorexMath` gives the corex helpers these files use: points, the uniform sampler, `clamp` and `mod`. Their headers are not part of this model, so each has its obvious definition.

How the model treats its inputs:

- **Randomness.** The generator is injected as an oracle `rng: nat -> real`. `rng(k)` is the k-th unit draw. `getRandomRealUniformly(lo, hi)` maps a draw `u` to `lo + (hi - lo)·u`.
- **How many draws a run takes.** The initial pack takes 2 draws per wolf. Each round then takes 12 draws for the leaders' `A`, `C` vectors. After those come 4 draws per wolf for the per-wolf `Aw`, `Cw`. The code computes `Aw` and `Cw` and never uses them, but they still shift the random stream. So round t starts at draw `DrawOffset(t, n) = 2n + t·(12 + 4n)`.
- **Floating point.** `float` becomes `real`.
- **Fitness.** Fitness is the squared distance to the target. `sqrt` is monotone, so this ranks points exactly as `fabs(distance2D)` does.
- **Sorting.** `std::sort` is specified only as "a permutation, non-decreasing by fitness" (`IsRankingOf`). The order of equal-fitness points is left open, because `std::sort` is not stable.

`GreyWolfOptimizer.Optimize` is an imperative method. The pack is an `array` that is updated and sorted in place. The method is proved to return a history `IsRun` in the following sense:

- the history has `max(numIterations, 0) + 1` snapshots;
- snapshot 0 is a ranking of `InitialPack`;
- snapshot t + 1 is a ranking of `MovedPack(snapshot t, ScheduleA(t), rng, DrawOffset(t))`.

Lemmas about `IsRun` give the rest: pack size, sortedness, the sampling box, coefficient bounds and the `a` schedule.

Where the code departs from the usual statement of the algorithm, the model follows the code:

- **The `a` schedule.** The usual GWO schedule is `a(t) = 2 − 2t/N` in round t. The code writes `2 − 2t/N` at the end of round t instead (gwo-viz/src/gwo_viz/GWO.cpp:112). So round 0 and round 1 both run with `a = 2`, and round t ≥ 1 runs with `2 − 2(t−1)/N`. `ScheduleA` is that lagged schedule, and `ScheduleBounds` proves it stays in (0, 2] and never increases.
- **Errors.** The code has no error results, no in-progress guard, no cancellation and no per-snapshot leader estimate. Every round indexes `pack[0..2]` unchecked, so a call that runs a round needs at least three wolves; the sampler needs a non-inverted box. Those two conditions are `requires`. A negative `numIterations` runs no rounds, and a negative `numWolves` samples an empty pack (`PackSize`).
- **Which wolves move.** All wolves, leaders included, move in every round. The leader positions used are the copies taken at the start of the round.

## Model

| member | source | states |
|---|---|---|
| `CorexMath.Uniform` | gwo-viz/src/gwo_viz/GWO.cpp:28-29 | definition: `getRandomRealUniformly(lo, hi)` fed with unit draw u is lo + (hi − lo)·u |
| `CorexMath.Clamp` | gwo-viz/src/gwo_viz/MainScene.cpp:138-139 | definition: `cx::clamp` as `std::clamp`, v < lo ? lo : (hi < v ? hi : v) |
| `CorexMath.Distance2DSquared` | gwo-viz/src/gwo_viz/GWO.cpp:38-39 | definition: squared Euclidean distance, ordering points as `fabs(distance2D)` does |
| `CorexMath.Vec2Abs` | gwo-viz/src/gwo_viz/GWO.cpp:90-92 | definition: componentwise absolute value |
| `CorexMath.PairwiseMult` | gwo-viz/src/gwo_viz/GWO.cpp:90-96 | definition: componentwise product |
| `CorexMath.UniformInRange` | gwo-viz/src/gwo_viz/GWO.cpp:28-29 | a unit draw mapped onto [lo, hi] with lo ≤ hi lands in [lo, hi] |
| `CorexMath.ClampRange` | gwo-viz/src/gwo_viz/MainScene.cpp:138-139 | with lo ≤ hi, clamp lands in [lo, hi], and it leaves v unchanged exactly when v is already in range |
| `CorexMath.Mod` | gwo-viz/src/gwo_viz/MainScene.cpp:152-153 | the modulus used by the step buttons is in [0, n) and is the identity on [0, n) |
| `CorexMath.ModWraps` | gwo-viz/src/gwo_viz/MainScene.cpp:166-169 | n wraps to 0 and −1 wraps to n − 1 |
| `CorexMath.BackThenForward` | gwo-viz/src/gwo_viz/MainScene.cpp:150-171 | from an index in [0, n), one step back then one forward returns to it |
| `CorexMath.ForwardThenBack` | gwo-viz/src/gwo_viz/MainScene.cpp:150-171 | from an index in [0, n), one step forward then one back returns to it |
| `Gwo.Fitness` | gwo-viz/src/gwo_viz/GWO.cpp:34-42 | definition: a wolf's fitness is its squared distance to the target |
| `Gwo.Rounds` | gwo-viz/src/gwo_viz/GWO.cpp:49 | definition: the loop `t < numIterations` runs max(numIterations, 0) rounds |
| `Gwo.PackSize` | gwo-viz/src/gwo_viz/GWO.cpp:27 | definition: the loop `i < numWolves` samples max(numWolves, 0) wolves |
| `Gwo.DrawOffset` | gwo-viz/src/gwo_viz/GWO.cpp:28-29 | definition: round t's first draw follows the 2n sampling draws (28-29) and t rounds of 12 leader draws (60-63) and 4n per-wolf draws (78-81) |
| `Gwo.SamplePoint` | gwo-viz/src/gwo_viz/GWO.cpp:27-31 | definition: wolf i is (Uniform(minPt.x, maxPt.x, draw 2i), Uniform(minPt.y, maxPt.y, draw 2i + 1)) |
| `Gwo.ScheduleA` | gwo-viz/src/gwo_viz/GWO.cpp:48 | definition: a is 2 in round 0 and 2 − 2(t − 1)/N in round t ≥ 1, the value written at line 112 of the previous round |
| `Gwo.LeaderCoefficients` | gwo-viz/src/gwo_viz/GWO.cpp:59-69 | definition: leader l's A = 2a·r1 − a and C = 2·r2, with r1 from draws off + 4l, off + 4l + 1 and r2 from the next two |
| `Gwo.Pull` | gwo-viz/src/gwo_viz/GWO.cpp:90-96 | definition: X = leader − A ⊙ abs(C ⊙ leader − wolf) |
| `Gwo.Move` | gwo-viz/src/gwo_viz/GWO.cpp:90-98 | definition: the new position is (X1 + X2 + X3) / 3 of the three leaders' pulls |
| `Gwo.InitialPack` | gwo-viz/src/gwo_viz/GWO.cpp:26-32 | the sampled pack has exactly numWolves points |
| `Gwo.MovedPack` | gwo-viz/src/gwo_viz/GWO.cpp:71-99 | moving the pack keeps its size; every wolf, leaders included, moves using the leaders as they were at the start of the round |
| `Gwo.CoefficientBounds` | gwo-viz/src/gwo_viz/GWO.cpp:59-69 | with unit draws and a ≥ 0, each leader's A components lie in [−a, a] and its C components in [0, 2] |
| `Gwo.UnitPointIsUnit` | gwo-viz/src/gwo_viz/GWO.cpp:60-63 | two unit draws passed through the [0, 1] sampler give a point with both coordinates in [0, 1] |
| `Gwo.CoefficientARange` | gwo-viz/src/gwo_viz/GWO.cpp:65-66 | with a ≥ 0 and unit r1, both components of A = 2a·r1 − a lie in [−a, a] |
| `Gwo.CoefficientCRange` | gwo-viz/src/gwo_viz/GWO.cpp:67-68 | with unit r2, both components of C = 2·r2 lie in [0, 2] |
| `Gwo.ScaledDrawBound` | gwo-viz/src/gwo_viz/GWO.cpp:65-66 | for a ≥ 0 and a unit draw u, 2a·u − a lies in [−a, a] |
| `Gwo.ScheduleBounds` | gwo-viz/src/gwo_viz/GWO.cpp:48-112 | in every round executed, a lies in (0, 2] and never increases; a is still 2 in round 1 |
| `Gwo.StartRunPrefix` | gwo-viz/src/gwo_viz/GWO.cpp:26-44 | the ranked initial pack alone is a prefix of the run |
| `Gwo.ExtendRunPrefix` | gwo-viz/src/gwo_viz/GWO.cpp:49-110 | a run prefix followed by one more round's ranked, moved pack is a run prefix one snapshot longer |
| `Gwo.DrawOffsetNext` | gwo-viz/src/gwo_viz/GWO.cpp:59-81 | the offset arithmetic AdvanceRun uses: DrawOffset(t + 1) is DrawOffset(t) plus the 12 + 4·numWolves draws that RunRound is proved to consume |
| `Gwo.RunShape` | gwo-viz/src/gwo_viz/GWO.cpp:26-110 | every snapshot of a run has numWolves points and is sorted by distance to the target |
| `Gwo.RankingKeepsBox` | gwo-viz/src/gwo_viz/GWO.cpp:34-42 | ranking only reorders the pack, so a box holding every point before the sort holds every point after it |
| `Gwo.FirstSnapshotInBox` | gwo-viz/src/gwo_viz/GWO.cpp:26-44 | with unit draws, every point of snapshot 0 lies in [minPt.x, maxPt.x] × [minPt.y, maxPt.y] |
| `Gwo.SelectionStep` | gwo-viz/src/gwo_viz/GWO.cpp:34-42 | swapping a least-key element of the unsorted suffix into position i extends the sorted, partitioned prefix by one |
| `Gwo.MinIndexFrom` | gwo-viz/src/gwo_viz/GWO.cpp:34-42 | returns the index of a least-key element of s[from..] |
| `Gwo.Swap` | gwo-viz/src/gwo_viz/GWO.cpp:34-42 | the exchange step of the sort: two entries swapped, multiset unchanged |
| `Gwo.SortByKey` | gwo-viz/src/gwo_viz/GWO.cpp:34-42 | the array afterwards is a permutation of its old contents, non-decreasing by key |
| `Gwo.RankPack` | gwo-viz/src/gwo_viz/GWO.cpp:101-109 | the pack afterwards is a ranking of its old contents by distance to the target |
| `Gwo.SamplePack` | gwo-viz/src/gwo_viz/GWO.cpp:26-32 | the sampling loop produces InitialPack: wolf i from draws 2i and 2i + 1 |
| `Gwo.ComputeLeaderCoefficients` | gwo-viz/src/gwo_viz/GWO.cpp:54-69 | Al[l] and Cl[l] are A = 2a·r1 − a and C = 2·r2 from leader l's four draws |
| `Gwo.MoveWolves` | gwo-viz/src/gwo_viz/GWO.cpp:71-99 | the in-place update loop leaves pack[j] = (X1+X2+X3)/3 of the old pack[j], for every j, and consumes 4 draws per wolf |
| `Gwo.RunRound` | gwo-viz/src/gwo_viz/GWO.cpp:50-110 | one round leaves the array a ranking of MovedPack of its old contents and returns the draw cursor advanced by 12 + 4·numWolves |
| `Gwo.AdvanceRun` | gwo-viz/src/gwo_viz/GWO.cpp:49-112 | one pass of the loop turns a run prefix ending in the current pack into a prefix one snapshot longer, with the cursor at the next round's offset |
| `Gwo.GreyWolfOptimizer.constructor` | gwo-viz/src/gwo_viz/GWO.cpp:15-16 | the counter starts at 0 |
| `Gwo.GreyWolfOptimizer.GetNumItersPerformed` | gwo-viz/src/gwo_viz/GWO.cpp:120-123 | returns the counter |
| `Gwo.GreyWolfOptimizer.Optimize` | gwo-viz/src/gwo_viz/GWO.cpp:18-118 | needs three wolves only when a round runs; returns a history that IsRun; it has max(numIterations, 0) + 1 snapshots of max(numWolves, 0) sorted points; with unit draws snapshot 0 is inside the box; the counter equals max(numIterations, 0) on return |
| `CoreScene.Scene.constructor` | corex/src/corex/core/Scene.cpp:18-37 | all 32 layers and all 32 sorting layers are enabled; there are no entities and no components |
| `CoreScene.Scene.GetStatus` | corex/src/corex/core/Scene.cpp:39-42 | returns the stored status |
| `CoreScene.Scene.SetSceneStatus` | corex/src/corex/core/Scene.cpp:126-129 | the status becomes the given value; nothing else changes |
| `CoreScene.Scene.CreateSceneEntity` | corex/src/corex/core/Scene.cpp:49-61 | appends exactly one fresh entity and leaves earlier entries unchanged; the new entity gets layer 1 and sorting layer 1 |
| `CoreScene.Scene.SetEntityLayer` | corex/src/corex/core/Scene.cpp:63-71 | changes only that entity's layer field |
| `CoreScene.Scene.GetEntityLayer` | corex/src/corex/core/Scene.cpp:73-77 | returns the entity's layer |
| `CoreScene.Scene.SetEntitySortingLayer` | corex/src/corex/core/Scene.cpp:79-88 | changes only that entity's sortingLayer field |
| `CoreScene.Scene.GetEntitySortingLayer` | corex/src/corex/core/Scene.cpp:90-94 | as written: returns the entity's layer field, not its sortingLayer |
| `CoreScene.Scene.GetEntitySortingLayerCorrected` | corex/src/corex/core/Scene.cpp:90-94 | the intended getter: returns the entity's sortingLayer |
| `CoreScene.Scene.EnableLayer` | corex/src/corex/core/Scene.cpp:96-99 | sets only entry l of the layer table to true; the sorting-layer table is untouched |
| `CoreScene.Scene.DisableLayer` | corex/src/corex/core/Scene.cpp:101-104 | sets only entry l of the layer table to false; the sorting-layer table is untouched |
| `CoreScene.Scene.IsLayerEnabled` | corex/src/corex/core/Scene.cpp:106-109 | returns entry l of the layer table |
| `CoreScene.Scene.EnableSortingLayer` | corex/src/corex/core/Scene.cpp:111-114 | sets only entry l of the sorting-layer table to true; the layer table is untouched |
| `CoreScene.Scene.DisableSortingLayer` | corex/src/corex/core/Scene.cpp:116-119 | sets only entry l of the sorting-layer table to false; the layer table is untouched |
| `CoreScene.Scene.IsSortingLayerEnabled` | corex/src/corex/core/Scene.cpp:121-124 | returns entry l of the sorting-layer table |
| `CoreScene.Scene.CreateLineSegmentsEntity` | corex/src/corex/core/Scene.cpp:131-143 | adds exactly one entity, with Position (0, 0, z), Renderable LINE_SEGMENTS and the given points and colour |
| `CoreScene.Scene.CreateCircleEntity` | corex/src/corex/core/Scene.cpp:145-159 | adds exactly one entity, with Position (x, y, z), Renderable PRIMITIVE_CIRCLE and the given radius, colour and fill |
| `CoreScene.SortingLayerGetterIgnoresSetter` | corex/src/corex/core/Scene.cpp:79-94 | after sorting layer 5 is set on a fresh entity, the as-written getter still reads 1 |
| `CoreScene.SortingLayerRoundTrip` | corex/src/corex/core/Scene.cpp:63-94 | on any valid scene and any entity it holds, with the corrected getter both the layer and the sorting layer read back as written, and e's record becomes exactly (layer, sortingLayer) |
| `CoreScene.LayerTablesIndependent` | corex/src/corex/core/Scene.cpp:96-124 | on any valid scene, disabling layer l makes it read disabled and leaves the whole sorting-layer table, entry l included, as it was |
| `MainScene.MainScene.constructor` | gwo-viz/src/gwo_viz/MainScene.cpp:46-58 | numIterations, numWolves and currIterDisplayed all start at 0; the marker handle is null; the flash state starts at 0 and not primary; the owned scene is the base scene's initial state: all 32 layers and all 32 sorting layers enabled, no entities and no components |
| `MainScene.MainScene.Init` | gwo-viz/src/gwo_viz/MainScene.cpp:60-79 | appends two fresh entities, keeping every earlier entity and component: the axes, with record (1, 1), Position (0, 0, 0, 1), LINE_SEGMENTS and the three axis points in grey; then the marker, with record (1, 1), Position at the origin with sorting layer 1, PRIMITIVE_CIRCLE and a filled radius-5 circle in the primary colour, whose handle is stored |
| `MainScene.MainScene.AxesPoints` | gwo-viz/src/gwo_viz/MainScene.cpp:67-71 | the axes polyline is exactly (origin.x, origin.y + regionHeight), the origin, (origin.x + regionWidth, origin.y) |
| `MainScene.MainScene.FlashBestSolPosition` | gwo-viz/src/gwo_viz/MainScene.cpp:93-118 | time accumulates; past 0.5 the marker's colour flips (primary on the first flip), the flag toggles and the accumulator resets to 0; otherwise nothing but the accumulator changes |
| `MainScene.MainScene.GenerateBestPosition` | gwo-viz/src/gwo_viz/MainScene.cpp:124-133 | only the marker's x and y change; with unit draws, x ∈ [coordOrigin.x, regionWidth] and y ∈ [coordOrigin.y, regionHeight] |
| `MainScene.MainScene.EditNumIterations` | gwo-viz/src/gwo_viz/MainScene.cpp:137-140 | stores the count and clamps the displayed index into [0, count − 1], keeping it when it is already in range |
| `MainScene.MainScene.EditNumWolves` | gwo-viz/src/gwo_viz/MainScene.cpp:142 | stores the typed wolf count |
| `MainScene.MainScene.EditIterDisplayed` | gwo-viz/src/gwo_viz/MainScene.cpp:159-162 | the typed index is clamped into [0, numIterations − 1] and is kept exactly when it is in range |
| `MainScene.MainScene.StepBackward` | gwo-viz/src/gwo_viz/MainScene.cpp:150-155 | with numIterations > 0 the index becomes mod(index − 1, numIterations); otherwise it is unchanged |
| `MainScene.MainScene.StepForward` | gwo-viz/src/gwo_viz/MainScene.cpp:166-171 | with numIterations > 0 the index becomes mod(index + 1, numIterations), which lies in [0, numIterations); otherwise it is unchanged |
| `MainScene.MainScene.HandleWindowEvents` | gwo-viz/src/gwo_viz/MainScene.cpp:176-181 | a close event sets the status to DONE; any other event changes nothing, and nothing else changes |
| `MainScene.BackThenForwardRestoresIndex` | gwo-viz/src/gwo_viz/MainScene.cpp:137-171 | after the count and index are set, pressing `<` then `>` shows the same iteration again |

Every `MainScene` transition and its constructor also preserve `DisplayIndexInRange`: once there is at least one iteration, the displayed index lies in [0, numIterations).

## Findings

| source | as written | input that shows it | evidently intended | confidence | as-written member | corrected member |
|---|---|---|---|---|---|---|
| corex/src/corex/core/Scene.cpp:90-94 | `getEntitySortingLayer` returns `props.layer` | on a fresh entity, `setEntitySortingLayer(e, 5)` followed by `getEntitySortingLayer(e)` gives 1 | return `props.sortingLayer` | not executed; high (the getter mirrors `getEntityLayer` line for line) | `CoreScene.Scene.GetEntitySortingLayer`, `CoreScene.SortingLayerGetterIgnoresSetter` | `CoreScene.Scene.GetEntitySortingLayerCorrected`, `CoreScene.SortingLayerRoundTrip` |

## Left out

- Leader estimates: `GWOResult::wolfPreys` is never computed, and `optimize` returns only the snapshots. The unused private `solutions` field of `GWO` is not modelled.
- Error results, an in-progress guard and cancellation: the code has none of them. The wolf-count and box conditions are preconditions instead.
- Determinism across runs is not stated. The sort is specified only up to the order of equal-fitness points, as `std::sort` leaves it.
- Floating-point rounding, `float` overflow and the `sqrt` in `distance2D` are not modelled: `float` is `real`, and fitness is the squared distance.
- The random generator's distribution and seeding are not modelled: draws come from the injected oracle. Bounds that need draws in [0, 1] take that as a hypothesis (`UnitDraws`, `IsUnitDraw`).
- 32-bit integers: `numIterations`, `numWolves`, `currIterDisplayed` and the counter are unbounded `int`. The only possible overflow is `numIterations - 1` at the least `int32_t`, which the model does not capture.
- `cx::clamp` and `cx::mod` are assumptions. Clamp is `std::clamp`'s formula, and its range is proved only when lo ≤ hi. When `numIterations ≤ 0`, the clamp at MainScene.cpp:138 and 160 follows that formula, so the real helper may differ there. Mod is the non-negative remainder for a positive modulus.
- The entity registry is owned by the scene and hands out fresh ids from a counter. The model leaves out these parts of it:
  - other users of the shared `entt::registry&`;
  - id recycling;
  - the generic `setEntityComponent`/`getEntityComponent` templates, used only through the maps they update.
- Layer indices outside [0, 32), and reads of an entity without a scene record, are undefined behaviour in the source. They are preconditions here.
- `Scene::status` is never initialised by the constructor, so the model takes its initial value as a constructor argument. `SceneStatus.hpp` is not part of this model: only `DONE` appears in the code, and the model adds `Running`.
- `getPPMRatio`, `AssetManager`, `Camera`, the event dispatcher wiring (`sink().connect`) and the pure-virtual `init`/`update`/`dispose` of the base class are left out.
- In `MainScene`, ImGui and SDL calls are left out. Each widget's effect is its own method, and `update`, which calls the flash step and then the widgets, is not a separate method. Also left out:
  - the "Generate Solutions" button, which does nothing in the code;
  - the unused `bestSol` field;
  - the console output of `init` and `dispose`.
- `MainScene` is derived from `Scene` in the source. Here it owns a `Scene`, because the model uses no inheritance.
- `flashBestSolPosition`'s function-local `static` state is shared by all scenes in the source. Here it belongs to each `MainScene` object.
- Concurrency: `<thread>` and `<atomic>` are included but unused in what is shown.
