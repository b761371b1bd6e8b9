# AR-Ruler measurement core, modelled in Dafny

AR-Ruler is a Unity/ARCore measuring app. The user taps detected surfaces to place anchors,
and the app reports distances, accumulated path lengths and angles between them. It also
draws each detected plane as a feathered mesh. This project models the two sequential
components inside that glue and proves properties about them.

- `ar_core_controller.dfy`, module `ARCore`: the anchor-measurement session of
  `ARCoreController`. The class `ARCoreController<A>` has the `mode` field, the three per-mode
  anchor lists, the running `accDistance` and the line renderers attached to anchors. Its methods
  are `ClearAnchorList`, the per-mode switch of `TouchScreen` and `RenderLine`.
  - `Valid()` states two invariants. First, `accDistance` always equals the sum of the distances
    between consecutive anchors of the accumulated-distance list (`PathLength`). Second, each
    list's line renderers sit exactly on the anchors that open a drawn segment.
  - Anchors are an opaque type. Distance (`GetDistanceByObject`, non-negative) and angle
    (`GetAngleByObject`) are uninterpreted functions fixed at construction.
  - The raycast outcome is an input of type `Touch`: a touch on the UI, a miss, a hit on the
    back of a plane, or a valid hit carrying the new anchor.
- `plane_visualizer.dfy`, module `PlaneMesh`: `_UpdateMeshIfNeeded` and `_AreVerticesListsEqual`
  of `PlaneVisualizer`. The class `PlaneVisualizer<V>` holds the previous boundary, the vertex,
  colour and index lists, the plane centre, and the mesh handed to Unity.
  - `Valid()` states that the drawn mesh is always the feathered mesh of the boundary remembered
    at the last rebuild.
  - Vertex equality (Unity's tolerance comparison) is an uninterpreted predicate. Nothing is
    assumed about it: not reflexivity, not transitivity.
  - The feathered inner vertex of a boundary point about the centre is an uninterpreted function.
  - The index buffer is given by reference definitions (`FanIndices`, `BorderIndices`,
    `MeshIndices`). Lemmas give their closed forms.

Behaviour of the program worth noting:
- The code does not reject boundaries with fewer than 3 points. With 0 points the buffers are
  empty. With 1 or 2 points only border triangles are emitted.
- The code has no guard for a boundary point at the centre (`|d| = 0`).
- The code does not check that positions are finite.
- The code compares boundaries with Unity's tolerance equality.
- The angle-mode line loop (`for i = -3; i < -1`) joins anchors (cnt-3, cnt-2) and
  (cnt-2, cnt-1), the two edges of the triple; `AddAngleAnchor` proves this.

## Model

| member | source | states |
|---|---|---|
| `ARCore.ARCoreController.constructor` | Assets/Scripts/ARCoreController.cs:37-45 | mode starts at 1, all three lists are empty and `accDistance` is 0 |
| `ARCore.ARCoreController.ClearAnchorList` | Assets/Scripts/ARCoreController.cs:47-61 | the three lists and their line renderers are emptied, `accDistance` becomes 0, the mode is kept, and the invariants still hold |
| `ARCore.ARCoreController.SetMode` | Assets/Scripts/UIManager.cs:35-37 | the mode buttons set `mode` and change nothing else |
| `ARCore.ARCoreController.TouchScreen` | Assets/Scripts/ARCoreController.cs:122-212 | a UI touch, a miss, a back-of-plane hit, or a mode other than 1, 2 or 3 changes none of the controller's fields and reports nothing. A valid hit appends exactly one anchor to the current mode's list and leaves the other two lists and the other mode's total untouched. The result is the measurement the new count completes. `accDistance` stays non-negative |
| `ARCore.ARCoreController.AddDistanceAnchor` | Assets/Scripts/ARCoreController.cs:156-168 | mode 1: the new anchor is appended. A distance is reported iff the new count is even, and it is `dist(list[cnt-2], list[cnt-1])` |
| `ARCore.ARCoreController.AddAccDistanceAnchor` | Assets/Scripts/ARCoreController.cs:170-182 | mode 2: `accDistance` grows by `dist(list[cnt-2], list[cnt-1])` exactly when cnt > 1. The displayed value is the new running total, which still equals the path length of the list |
| `ARCore.ARCoreController.AddAngleAnchor` | Assets/Scripts/ARCoreController.cs:184-208 | mode 3: an angle is reported iff the new count is a multiple of 3. Its vertex is `list[cnt-2]` and its rays go to `list[cnt-3]` and `list[cnt-1]`. The i = -3, -2 loop gives exactly anchors cnt-3 and cnt-2 a line, each to the next anchor, and only within the list |
| `ARCore.ARCoreController.RenderLine` | Assets/Scripts/ARCoreController.cs:229-255 | the distance loop refreshes exactly (2k, 2k+1) for k < cnt/2, the accumulated-distance loop exactly (k, k+1) for k < cnt-1, and the angle loop exactly the two edges of each complete triple. Every pair is (i, i+1) inside its list on an anchor that carries a line renderer, and conversely every line renderer on every list is refreshed |
| `ARCore.DistanceLinePairs` | Assets/Scripts/ARCoreController.cs:231-236 | the distance loop visits exactly the pairs (2k, 2k+1) for k < count/2, all inside the list |
| `ARCore.AccDistanceLinePairs` | Assets/Scripts/ARCoreController.cs:238-243 | the accumulated-distance loop visits exactly the pairs (k, k+1) for k < count-1 |
| `ARCore.AngleLinePairs` | Assets/Scripts/ARCoreController.cs:245-253 | the angle loop visits (3k, 3k+1) and (3k+1, 3k+2) for each complete triple (3k+2 < count), and nothing else |
| `ARCore.AngleLineAfterAppend` | Assets/Scripts/ARCoreController.cs:186-205 | appending to the angle list creates new lines only when the count becomes a multiple of 3, and then exactly on anchors cnt-3 and cnt-2 |
| `ARCore.AngleLineHasPair` | Assets/Scripts/ARCoreController.cs:245-253 | every anchor of the angle list that carries a line renderer starts one of the pairs the angle loop visits |
| `ARCore.AnglePairInList` | Assets/Scripts/ARCoreController.cs:245-253 | each pair the angle loop visits is (i, i+1), inside the list, and on an anchor that carries a line |
| `ARCore.PathLengthAppend` | Assets/Scripts/ARCoreController.cs:176-178 | appending an anchor adds to the path length exactly the distance from the previous last anchor. This is why the `+=` keeps `accDistance` equal to the sum of consecutive distances |
| `ARCore.PathLengthNonNegative` | Assets/Scripts/ARCoreController.cs:216-219 | with non-negative distances, the accumulated path length is non-negative |
| `ARCore.AccumulationRestartsAfterClear` | Assets/Scripts/UIManager.cs:35-46 | clear, then switch to mode 2, then touch a and b: the first touch reports nothing, and the second reports a total of exactly `dist(a, b)` |
| `PlaneMesh.AreVerticesListsEqual` | Assets/Scripts/PlaneVisualizer.cs:149-165 | returns true iff both lists have the same length and are element-wise equal under the vertex comparison |
| `PlaneMesh.PlaneVisualizer.constructor` | Assets/Scripts/PlaneVisualizer.cs:34-40 | starts with an empty previous boundary and an empty mesh, which is the feathered mesh of the empty boundary |
| `PlaneMesh.PlaneVisualizer.UpdateMeshIfNeeded` | Assets/Scripts/PlaneVisualizer.cs:74-148 | rebuilds iff the boundary differs from the previous one. Without a rebuild, only `meshVertices` is overwritten with the fetched boundary; colours, indices, the previous boundary, the centre and the mesh are untouched. After a rebuild, the previous boundary is the new one and the mesh is its feathered mesh. The mesh always matches the remembered boundary |
| `PlaneMesh.PlaneVisualizer.Rebuild` | Assets/Scripts/PlaneVisualizer.cs:83-148 | the fetched boundary becomes the remembered one, the centre is stored, and the mesh set on Unity's object is the feathered mesh of that boundary, built from the vertex, colour and index lists |
| `PlaneMesh.PlaneVisualizer.BuildRings` | Assets/Scripts/PlaneVisualizer.cs:92-115 | `meshVertices` grows from N to 2N entries. The first N are the boundary unchanged, and entry N+i is the inner vertex of boundary point i. `meshColors` is N clear then N white |
| `PlaneMesh.PlaneVisualizer.BuildIndices` | Assets/Scripts/PlaneVisualizer.cs:117-142 | the fan loop and the border loop produce exactly `MeshIndices(N)` |
| `PlaneMesh.PlaneVisualizer.AppendFanIndices` | Assets/Scripts/PlaneVisualizer.cs:121-126 | the fan loop appends exactly `FanIndices(N, max(0, N−2))` to the index list: triangle i is (N, N+i+1, N+i+2) |
| `PlaneMesh.PlaneVisualizer.AppendBorderIndices` | Assets/Scripts/PlaneVisualizer.cs:128-142 | the border loop appends exactly `BorderIndices(N, N)` to the index list: edge i's two triangles, in edge order |
| `PlaneMesh.MeshIndicesShape` | Assets/Scripts/PlaneVisualizer.cs:117-142 | the index buffer has length 3·max(0, N−2) + 6N, a multiple of 3, and for N ≥ 1 every index lies in [0, 2N) |
| `PlaneMesh.MeshFanTriangle` | Assets/Scripts/PlaneVisualizer.cs:121-126 | fan triangle i (0 ≤ i < N−2) is exactly (N, N+i+1, N+i+2) |
| `PlaneMesh.MeshBorderTriangles` | Assets/Scripts/PlaneVisualizer.cs:128-142 | border edge i follows the fan and emits (i, (i+1)%N, N+i) then (N+i, (i+1)%N, N+(i+1)%N), so the last edge wraps back to vertices 0 and N |
| `PlaneMesh.FanIndicesAt` | Assets/Scripts/PlaneVisualizer.cs:121-126 | after m iterations of the fan loop, the buffer holds 3m entries, and triangle i is (n, n+i+1, n+i+2) |
| `PlaneMesh.FanIndicesInRange` | Assets/Scripts/PlaneVisualizer.cs:121-126 | every fan index is an inner-ring vertex, in [N, 2N) |
| `PlaneMesh.BorderIndicesAt` | Assets/Scripts/PlaneVisualizer.cs:128-142 | after m iterations of the border loop, entries 6i to 6i+5 are edge i's two triangles |
| `PlaneMesh.BorderIndicesInRange` | Assets/Scripts/PlaneVisualizer.cs:128-142 | every border index lies in [0, 2N) |
| `PlaneMesh.UpdateTwice` | Assets/Scripts/PlaneVisualizer.cs:76-84 | a second update with the same boundary, right after the first, is a no-op whenever the vertex comparison holds between each boundary point and itself |

## Left out

- Application lifecycle and Android calls are OS and JNI I/O and are not modelled: `UpdateApplicationLifecycle`, `ShowAndroidToastMessage`, `QuitApplication` and the sleep timeout (Assets/Scripts/ARCoreController.cs:79-120, 258-261).
- `Update`'s touch filter (touch count and phase), `IsPointerOverGameObject`, `Frame.Raycast`, the back-face dot-product test, `CreateAnchor` and `Instantiate` are ARCore and Unity calls. Their combined outcome is the `Touch` input of `TouchScreen`.
- `Destroy` of anchor objects is modelled only as emptying the lists. Object lifetimes are not modelled.
- Anchor positions are treated as fixed once placed: `dist` and `angle` depend only on which anchors they are given. The program reads `transform.position` on every call (Assets/Scripts/ARCoreController.cs:216-219), and ARCore may move anchor poses after placement. In the program, `accDistance` is the sum of each segment's distance at the moment it was measured, and it can drift from the current path length. The invariant `accDistance == PathLength(...)` holds only under this assumption.
- `ARCore.ARCoreController.TouchScreen`: in a mode other than 1, 2 or 3, the program still creates an anchor and instantiates its object for a valid hit (Assets/Scripts/ARCoreController.cs:149-152). That anchor joins no list, so `ClearAnchorList` never destroys it. The model says only that the controller's fields are unchanged; the orphan anchor is not modelled.
- Float arithmetic is not modelled. The distance (`magnitude*100`), `Vector3.Angle` and the feather scale `1 - min(0.2/|d|, 0.2)` are uninterpreted functions. `accDistance` is an exact real, so float rounding of the running sum is not captured.
- UIManager's labels are rendering and are not modelled: the text prefabs and the `((int)(x*100))/100f` truncation of displayed values. Of `DrawDistanceBetweenObject`, only the line renderer it attaches is modelled, as a flag on the anchor. `DrawAngleBetweenAnchor` appears only as the reported measurement.
- `ARCore.ARCoreController.RenderLine`: returns the index pairs whose line renderers are refreshed. It does not model the positions written by `SetPosition`, which are engine state. Line widths and vertex counts are not modelled either.
- The source's `list` local aliases one of the three list fields. The model updates the field directly, as a `seq` value.
- The unused fields `prevAnchor` and `numAnchor`, the singleton `Instance` getters, and the `firstPersonCamera` and `anchorModelPrefab` references are not modelled.
- Parts of `PlaneVisualizer` are engine plumbing and are not modelled: `Update`'s tracking-state and subsumption branches, the colour cycling and random UV rotation in `Initialize`, and the `_PlaneNormal` material vector computed from the centre pose's rotation.
- `GetBoundaryPolygon` and `CenterPose` are ARCore calls. Their results are the `boundary` and `center` parameters of `UpdateMeshIfNeeded`. Unity's `Mesh` object is a value of type `Mesh` holding the vertices, indices and colours last set.
- `PlaneGenerator.cs` and `LookCamera.cs` are per-frame engine glue and camera transforms and are not part of this model.
