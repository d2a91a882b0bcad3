# Projection-mapping calibration and the two projection games, in Dafny

This project models the core of a Unity projection-mapping rig and of the two
small games played on it.

**The calibration mapper.** `TrilinearInterpolator` maps a point tracked by the
motion-capture system into projector space:

- It clamps the point into the bounding box of eight source corners.
- It turns the clamped point into three interpolation factors in [0,1].
  Each axis can optionally be flipped.
- It blends eight destination corners along X, then Y, then Z. Each corner is
  first shifted by a per-octant "fudge" vector.
- It can rectangularise skewed corner arrays in place.

**The components around the mapper.**

- `OptitrackProjectorTranslator` captures calibration corners and keeps the
  eight corner markers in step with the destination corners.
- Every frame, the translator moves the projector to the mapped tracker
  position and turns it by two Euler triples.
- `ProjectorSize` pushes the projector and background dimensions onto the
  scene's planes and camera.
- `CalibrationSaveLoad` snapshots all calibrated fields of those three
  components into one record, and applies such a record back.
- `DynamicQuadDeformer` keeps a textured quad on four draggable corner points.
  It saves the points to the engine's preference store and loads them back.

**The games.**

- `PinkButtonGameManager` spawns buttons in distinct random grid cells. Each
  frame, it fires and removes every button within trigger distance of a
  tracked capsule.
- `Chicken` walks forward and turns around on fences and other chickens, with
  a cooldown.
- `Person` collects chickens, wins once and loses on a bomb.

**Modelling conventions.**

- Floats are `real`, and `Vector3` is the datatype `Vec3`.
- The engine's `Mathf`/`Vector3` helpers are written out in `unity_math.dfy`
  with the engine's semantics:
  - `Clamp` tests the lower bound first;
  - `InverseLerp` returns 0 on equal bounds;
  - `Lerp` clamps `t`.
- Components whose fields change in place are classes with `modifies`
  clauses.
- Pure computations are functions with lemmas.
- Loops are methods proved against specification functions.
- These become method parameters: time, key presses, the tracker pose and
  the plane's scale.
- `Random.Range` becomes a nondeterministic choice (`:|`).
- These are recorded as event lists on the component: instantiating or
  destroying objects, playing sounds and scheduling a scene reload.

Octant convention: corner `i = 4*x + 2*y + z`, where a set bit selects the
maximum on that axis. This matches the corner comments in
`Assets/Scripts/TrilinearInterpolator.cs` and
`Assets/Scripts/OptitrackProjectorTranslator.cs`.

Three behaviours of the code that are easy to misread:

- **Rotation sign.** The second `Rotate` multiplies the offset by
  `flip ? 1 : -1` (`Assets/Scripts/OptitrackProjectorTranslator.cs:98-100`),
  the same factor the first `Rotate` uses before its own negation.
- **`CalibrateCorner` with an index outside 0..7.** There is no range check:
  the source write is unguarded, and the `switch` has no default branch, so
  such an index either fails on the source array or writes only there.
- **`GetMinVector` and `GetMaxVector` on an empty or null array.** They log
  and return the zero vector. They do not fail.

**Index errors.** Where the engine would stop with an index error (a corner
array shorter than eight, a corner index outside the source array), the
method models the writes made before the error and returns `completed =
false`; the rest of the call does not happen.

## Model

| member | source | states |
|---|---|---|
| Trilinear.GetMinVector | Assets/Scripts/TrilinearInterpolator.cs:155-169 | the loop returns zero for a null or empty array, and otherwise the component-wise minimum `MinVector` of the array |
| Trilinear.GetMaxVector | Assets/Scripts/TrilinearInterpolator.cs:172-186 | the loop returns zero for a null or empty array, and otherwise the component-wise maximum `MaxVector` |
| Trilinear.GetMinCorner | Assets/Scripts/TrilinearInterpolator.cs:138-144 | the `Vector3.Min` fold starting from `corners[0]` is `SeqMin` of the array |
| Trilinear.GetMaxCorner | Assets/Scripts/TrilinearInterpolator.cs:146-152 | the `Vector3.Max` fold starting from `corners[0]` is `SeqMax` of the array |
| Trilinear.SeqMinBound | Assets/Scripts/TrilinearInterpolator.cs:138-144 | the minimum corner is below every corner on every axis, and some corner attains it |
| Trilinear.SeqMaxBound | Assets/Scripts/TrilinearInterpolator.cs:146-152 | the maximum corner is above every corner on every axis, and some corner attains it |
| Trilinear.SeqBounds | Assets/Scripts/TrilinearInterpolator.cs:138-152 | every corner lies in the box between the minimum and maximum corners |
| Trilinear.MinVectorBelowMax | Assets/Scripts/TrilinearInterpolator.cs:155-186 | the minimum vector never exceeds the maximum vector, the empty-array zero case included |
| Trilinear.SeqMinIs | Assets/Scripts/TrilinearInterpolator.cs:138-144 | an attained lower bound on an axis is the minimum on that axis |
| Trilinear.SeqMaxIs | Assets/Scripts/TrilinearInterpolator.cs:146-152 | an attained upper bound on an axis is the maximum on that axis |
| Trilinear.ClampCoordinate | Assets/Scripts/TrilinearInterpolator.cs:127-136 | the clamped point lies in the source bounds, and a point already inside is returned unchanged |
| Trilinear.InterpolationFactors | Assets/Scripts/TrilinearInterpolator.cs:49-59 | each factor lies in [0,1]; a degenerate axis gives 0, or 1 when that axis is flipped |
| Trilinear.BlendCube | Assets/Scripts/TrilinearInterpolator.cs:72-83 | the seven lerps, X then Y then Z; what they compute is stated by BlendCubeAtCorner, BlendCubeInBox and BlendOctantBox |
| Trilinear.InterpolateCube | Assets/Scripts/TrilinearInterpolator.cs:62-84 | the blend of the eight fudged destination corners; InterpolateCubeUsesFudgedCorners and InterpolateCubeAtCorner state it |
| Trilinear.TrilinearInterpolate | Assets/Scripts/TrilinearInterpolator.cs:37-46 | clamp, factors from the source bounds, blend of the destination; Containment, SourceCornerMapsToFudgedCorner, CornerExactness and BoxToBox state what it computes |
| Trilinear.FlipComplementsFactor | Assets/Scripts/TrilinearInterpolator.cs:54-56 | flipping an axis replaces that factor `t` by `1 - t` and leaves the others alone |
| Trilinear.FactorIsRelativePosition | Assets/Scripts/TrilinearInterpolator.cs:50-52 | inside a non-degenerate axis, lerping the bounds by the unflipped factor gives back the coordinate |
| Trilinear.InterpolateCubeUsesFudgedCorners | Assets/Scripts/TrilinearInterpolator.cs:62-70 | the eight literal fudge vectors are `fudgeMax*` exactly on the set bits of the corner index |
| Trilinear.BlendCubeAtCorner | Assets/Scripts/TrilinearInterpolator.cs:72-83 | at factors that are 0 or 1 per axis, the seven lerps return exactly the corner those bits name |
| Trilinear.InterpolateCubeAtCorner | Assets/Scripts/TrilinearInterpolator.cs:62-84 | at a corner's factors, the interpolation returns that fudged destination corner |
| Trilinear.BlendCubeInBox | Assets/Scripts/TrilinearInterpolator.cs:72-83 | the blend of eight points in a box stays in the box |
| Trilinear.Containment | Assets/Scripts/TrilinearInterpolator.cs:37-46 | every mapped point lies in the bounding box of the eight fudged destination corners, for every input |
| Trilinear.OctantBoxBounds | Assets/Scripts/TrilinearInterpolator.cs:138-152 | the minimum and maximum corners of an axis-aligned octant box are its corners 0 and 7 |
| Trilinear.FlipIndexBits | Assets/Scripts/TrilinearInterpolator.cs:54-56 | mirroring the flipped axes toggles exactly their bits of the corner index |
| Trilinear.FactorsAtOctantCorner | Assets/Scripts/TrilinearInterpolator.cs:49-59 | at a corner of a non-degenerate source box, the factors are that corner's bits, mirrored on flipped axes |
| Trilinear.FactorAtBound | Assets/Scripts/TrilinearInterpolator.cs:50-56 | the per-axis factor of a bound is 0 or 1, and flips exchange them |
| Trilinear.SourceCornerMapsToFudgedCorner | Assets/Scripts/TrilinearInterpolator.cs:37-84 | source corner `i` of an octant box maps onto fudged destination corner `i` with the flipped axes' bits toggled |
| Trilinear.CornerExactness | Assets/Scripts/TrilinearInterpolator.cs:37-84 | with no flips and zero fudge, source corner `i` maps exactly onto destination corner `i` |
| Trilinear.InverseLerpOfClamp | Assets/Scripts/TrilinearInterpolator.cs:39-52 | clamping a coordinate before `InverseLerp` does not change its factor |
| Trilinear.BlendOctantBox | Assets/Scripts/TrilinearInterpolator.cs:72-83 | blending the corners of an axis-aligned box is a per-axis lerp between its extremes |
| Trilinear.BoxToBox | Assets/Scripts/TrilinearInterpolator.cs:37-84 | with no flips and zero fudge, between two axis-aligned boxes the map carries each coordinate's relative position in the source box to the destination box |
| Trilinear.BoxCorners | Assets/Scripts/TrilinearInterpolator.cs:116-123 | the eight corners in the order the engine writes them are the corners the octant convention names; the list runs from `lo` to `hi`, and every corner lies in the box when `lo <= hi` |
| Trilinear.CentreMapsToCentre | Assets/Scripts/TrilinearInterpolator.cs:37-84 | the centre of the cube [-1,1]^3 maps onto the centre (1, 0.5, 0.5) of the box (0,0,0)-(2,1,1) |
| Trilinear.ClampedCorners | Assets/Scripts/TrilinearInterpolator.cs:112-124 | rectangularising keeps the array's length; on an array shorter than eight, every entry it has is rewritten before the index error |
| Trilinear.ClampedCornersZ | Assets/Scripts/TrilinearInterpolator.cs:93-110 | the Z variant keeps the array's length; an array shorter than eight fails on the pair-depth reads and is left as it was |
| Trilinear.ClampPreservesBounds | Assets/Scripts/TrilinearInterpolator.cs:112-124 | rectangularising keeps the array's minimum and maximum vectors |
| Trilinear.ClampIdempotent | Assets/Scripts/TrilinearInterpolator.cs:112-124 | rectangularising twice is rectangularising once |
| Trilinear.ClampZMatchesClampOnXY | Assets/Scripts/TrilinearInterpolator.cs:93-124 | the Z variant gives every corner the same x and y as the full clamp |
| Trilinear.ClampZPairDepths | Assets/Scripts/TrilinearInterpolator.cs:97-109 | the two corners of each x-pair share a depth: the minimum z of the pair for front corners, the maximum for back corners |
| Trilinear.ClampZPreservesXYBounds | Assets/Scripts/TrilinearInterpolator.cs:93-110 | the Z variant keeps the array's x and y bounds |
| Trilinear.ClampZIdempotent | Assets/Scripts/TrilinearInterpolator.cs:93-110 | the Z variant applied twice is the Z variant applied once |
| Trilinear.ClampZAfterClamp | Assets/Scripts/TrilinearInterpolator.cs:93-124 | on an already rectangular array the Z variant changes nothing |
| Trilinear.ClampCornerArray | Assets/Scripts/TrilinearInterpolator.cs:112-124 | in place, the array becomes `ClampedCorners` of its old contents, on any length; `completed` holds exactly when it has at least eight entries |
| Trilinear.ClampCornerArrayZ | Assets/Scripts/TrilinearInterpolator.cs:93-110 | in place, the array becomes `ClampedCornersZ` of its old contents, on any length; `completed` holds exactly when it has at least eight entries |
| Trilinear.TrilinearInterpolator.constructor | Assets/Scripts/TrilinearInterpolator.cs:9-25 | no flips, zero fudge, and two separate arrays of eight zero corners |
| Trilinear.TrilinearInterpolator.Map | Assets/Scripts/TrilinearInterpolator.cs:37-46 | `TrilinearInterpolate` on the component's flips, fudges and corner arrays |
| Trilinear.TrilinearInterpolator.ClampCubeCorners | Assets/Scripts/TrilinearInterpolator.cs:85-88 | the source array is rectangularised; the destination array is too unless the source clamp stopped at an index error; `completed` holds exactly when both arrays have eight entries |
| Trilinear.TrilinearInterpolator.ClampCubeCornersZ | Assets/Scripts/TrilinearInterpolator.cs:89-92 | the source array gets the full clamp; the destination array gets the Z variant unless the source clamp stopped at an index error; `completed` holds exactly when both arrays have eight entries |
| ProjectorTranslator.AxisSign | Assets/Scripts/OptitrackProjectorTranslator.cs:94-98 | the sign is ±1, positive exactly when the axis is flipped |
| ProjectorTranslator.TrackedRotation | Assets/Scripts/OptitrackProjectorTranslator.cs:94-96 | the first `Rotate` triple; NoFlipSignRule, FlipXNegatesX and CapturedOffsetOpposesTracking state its signs |
| ProjectorTranslator.OffsetRotation | Assets/Scripts/OptitrackProjectorTranslator.cs:98-100 | the second `Rotate` triple; the same three lemmas state its signs |
| ProjectorTranslator.NoFlipSignRule | Assets/Scripts/OptitrackProjectorTranslator.cs:94-98 | with no flips, the tracked angles pass through and the offset is negated |
| ProjectorTranslator.FlipXNegatesX | Assets/Scripts/OptitrackProjectorTranslator.cs:94-98 | flipping X negates the x angle of both triples and nothing else |
| ProjectorTranslator.CapturedOffsetOpposesTracking | Assets/Scripts/OptitrackProjectorTranslator.cs:65-68 | an offset captured from the current angles gives a second triple that exactly opposes the first |
| ProjectorTranslator.CaptureThenSyncKeepsMarker | Assets/Scripts/OptitrackProjectorTranslator.cs:37-62 | capturing corner `k` and then syncing leaves marker `k` where it was, and every other marker gets what the sync alone gives it |
| ProjectorTranslator.SyncedMarkersFull | Assets/Scripts/OptitrackProjectorTranslator.cs:51-62 | on a destination of at least eight corners, the markers become its first eight corners |
| ProjectorTranslator.SyncedMarkerMoves | Assets/Scripts/OptitrackProjectorTranslator.cs:51-62 | marker `k` moves to destination corner `k` exactly when the destination has one, and otherwise stays |
| ProjectorTranslator.SyncedMarkersIdempotent | Assets/Scripts/OptitrackProjectorTranslator.cs:51-62 | syncing the markers twice is syncing them once |
| ProjectorTranslator.OptitrackProjectorTranslator.constructor | Assets/Scripts/OptitrackProjectorTranslator.cs:8-34 | no flips, a zero offset and the given markers |
| ProjectorTranslator.OptitrackProjectorTranslator.CalibrateCorner | Assets/Scripts/OptitrackProjectorTranslator.cs:37-50 | the tracker position goes into source slot `corner` when that slot exists; only corners 0..7 also copy their marker into the destination slot, when it exists; `completed` is false exactly on an index error |
| ProjectorTranslator.OptitrackProjectorTranslator.ApplyCornerTransforms | Assets/Scripts/OptitrackProjectorTranslator.cs:51-62 | the markers become `SyncedMarkers` of the destination: marker `k` takes corner `k` while the array has one; `completed` holds exactly when it has eight |
| ProjectorTranslator.OptitrackProjectorTranslator.SetRotationOffset | Assets/Scripts/OptitrackProjectorTranslator.cs:65-68 | the offset becomes the tracker's current angles |
| ProjectorTranslator.OptitrackProjectorTranslator.ResetRotationOffset | Assets/Scripts/OptitrackProjectorTranslator.cs:69-72 | the offset becomes zero |
| ProjectorTranslator.OptitrackProjectorTranslator.ClampCubeCorners | Assets/Scripts/OptitrackProjectorTranslator.cs:74-78 | both arrays are clamped as the interpolator clamps them; the markers move to the first eight destination corners only when the clamp completed |
| ProjectorTranslator.OptitrackProjectorTranslator.ClampCubeCornersZ | Assets/Scripts/OptitrackProjectorTranslator.cs:79-83 | source full clamp and destination Z variant as the interpolator does them; the markers move only when the clamp completed |
| ProjectorTranslator.OptitrackProjectorTranslator.Update | Assets/Scripts/OptitrackProjectorTranslator.cs:85-101 | the projector goes to the mapped tracker position, and its rotation is the tracked triple followed by the offset triple |
| ProjectorSizing.ProjectorSize.constructor | Assets/Scripts/ProjectorSize.cs:8-27 | the inspector defaults of every dimension |
| ProjectorSizing.ProjectorSize.UnitFactorMatchesCornerScale | Assets/Scripts/ProjectorSize.cs:30-36 | with a scale factor of 1, the projector plane is the size of a corner plane |
| ProjectorSizing.ProjectorSize.ProjectorScaleIsScaled | Assets/Scripts/ProjectorSize.cs:30-36 | the projector plane is the corner size scaled by the factor on every axis |
| ProjectorSizing.ProjectorSize.UpdatePlaneScale | Assets/Scripts/ProjectorSize.cs:30-36 | every corner plane gets the projector size, and the projector plane gets that size times the factor |
| ProjectorSizing.ProjectorSize.UpdateCamera | Assets/Scripts/ProjectorSize.cs:38-40 | the field of view becomes `cameraFOV` |
| ProjectorSizing.ProjectorSize.UpdateBackgroundScale | Assets/Scripts/ProjectorSize.cs:42-45 | the background is placed at the camera distance, with the background size |
| ProjectorSizing.ProjectorSize.HideCalibration | Assets/Scripts/ProjectorSize.cs:47-53 | every corner plane and the background are deactivated |
| ProjectorSizing.ProjectorSize.ShowCalibration | Assets/Scripts/ProjectorSize.cs:54-60 | every corner plane and the background are activated |
| CalibrationStore.CalibrationSaveLoad.ApplyFields | Assets/Scripts/CalibrationSaveLoad.cs:84-126 | after the field writes, the snapshot is exactly the applied record |
| CalibrationStore.CalibrationSaveLoad.RunHooks | Assets/Scripts/CalibrationSaveLoad.cs:127-131 | the three size hooks always run, so the planes, the camera and the background show the current dimensions; the marker sync runs as `ApplyCornerTransforms` does, on any destination length; no calibrated value changes |
| CalibrationStore.CalibrationSaveLoad.ApplyCalibration | Assets/Scripts/CalibrationSaveLoad.cs:84-132 | for a record with arrays of any length, the snapshot becomes that record and the scene shows its dimensions; the markers are synced up to the first missing destination corner, and the call completes exactly when the translator's destination array has eight corners |
| CalibrationStore.CalibrationSaveLoad.SaveThenLoad | Assets/Scripts/CalibrationSaveLoad.cs:36-132 | applying the snapshot just taken restores every calibrated value whatever the array lengths, the scene shows the restored dimensions, and the markers are synced as far as the destination reaches |
| CalibrationStore.CalibrationSaveLoad.GetCalibration | Assets/Scripts/CalibrationSaveLoad.cs:36-80 | the record of the 28 calibrated fields; ApplyFields, ApplyCalibration and SaveThenLoad state that applying it is the inverse of taking it |
| CalibrationStore.DefaultCalibrationData | Assets/Scripts/CalibrationSaveLoad.cs:135-175 | the record's field initialisers; SnapshotOfDefaults states that they match fresh components |
| CalibrationStore.SnapshotOfDefaults | Assets/Scripts/CalibrationSaveLoad.cs:135-175 | the record's initialisers agree with a snapshot of freshly created components |
| QuadDeformer.GetFloatAfterSetFloat | Assets/Scripts/DynamicQuadDeformer.cs:81-98 | reading a key just stored gives the stored value whatever the default, and storing one key leaves every other key's reading alone |
| QuadDeformer.KeyInjective | Assets/Scripts/DynamicQuadDeformer.cs:82-84 | different point names or axes give different keys |
| QuadDeformer.KeyEndsWithAxis | Assets/Scripts/DynamicQuadDeformer.cs:82-84 | a key ends with its axis letter |
| QuadDeformer.Key | Assets/Scripts/DynamicQuadDeformer.cs:82-84 | the key `prefix.name.position.axis`; KeyInjective and KeyEndsWithAxis state it |
| QuadDeformer.SavePoint | Assets/Scripts/DynamicQuadDeformer.cs:81-85 | the three stores of one point; SaveAllStores and SaveAllKeepsOtherKeys state what they leave in the store |
| QuadDeformer.SaveAll | Assets/Scripts/DynamicQuadDeformer.cs:75-80 | one `SavePoint` per point, in order; SaveAllOfFour, SaveAllStores and SaveThenLoadRestores state it |
| QuadDeformer.SaveAllOfFour | Assets/Scripts/DynamicQuadDeformer.cs:75-80 | saving four points is four single-point saves in order |
| QuadDeformer.LoadPoint | Assets/Scripts/DynamicQuadDeformer.cs:93-98 | each coordinate comes from its key when present, and otherwise keeps the current one |
| QuadDeformer.SaveAllKeepsOtherKeys | Assets/Scripts/DynamicQuadDeformer.cs:75-85 | saving other points leaves a point's keys as they were |
| QuadDeformer.SaveAllStores | Assets/Scripts/DynamicQuadDeformer.cs:75-85 | after saving points with distinct names, each point's three keys hold its coordinates |
| QuadDeformer.SaveThenLoadRestores | Assets/Scripts/DynamicQuadDeformer.cs:75-98 | loading with the prefix of the save restores every saved point |
| QuadDeformer.InitialVertices | Assets/Scripts/DynamicQuadDeformer.cs:31-36 | four distinct vertices at the corners of the unit square centred at the origin |
| QuadDeformer.MeshIsWellFormed | Assets/Scripts/DynamicQuadDeformer.cs:31-46 | the triangles index only the four vertices, and each UV is its vertex shifted into [0,1]^2 |
| QuadDeformer.ResetReproducesInitialVertices | Assets/Scripts/DynamicQuadDeformer.cs:53-73 | the reset positions, laid out as `Update` lays out vertices, are the initial vertices |
| QuadDeformer.DynamicQuadDeformer.SavePointPosition | Assets/Scripts/DynamicQuadDeformer.cs:81-85 | the store gains the point's three coordinates under its keys |
| QuadDeformer.DynamicQuadDeformer.SavePointPositions | Assets/Scripts/DynamicQuadDeformer.cs:75-80 | yellow, green, blue, red are saved in that order |
| QuadDeformer.DynamicQuadDeformer.LoadPointPosition | Assets/Scripts/DynamicQuadDeformer.cs:93-98 | the point's world position becomes the loaded one |
| QuadDeformer.DynamicQuadDeformer.LoadPointPositions | Assets/Scripts/DynamicQuadDeformer.cs:87-92 | each of the four points is loaded against its own current position |
| QuadDeformer.DynamicQuadDeformer.ResetPointPositions | Assets/Scripts/DynamicQuadDeformer.cs:68-73 | the four points return to the corners of the unit square |
| QuadDeformer.DynamicQuadDeformer.Start | Assets/Scripts/DynamicQuadDeformer.cs:23-51 | the reference is hidden, the points are loaded, and the unit-square mesh is built |
| QuadDeformer.DynamicQuadDeformer.Update | Assets/Scripts/DynamicQuadDeformer.cs:53-61 | the vertices take the points' positions (3 yellow, 0 green, 1 blue, 2 red), and the points are reset only on the key press |
| QuadDeformer.DynamicQuadDeformer.OnApplicationQuit | Assets/Scripts/DynamicQuadDeformer.cs:63-66 | the points are saved under the component's prefix |
| QuadDeformer.DynamicQuadDeformer.SaveThenLoad | Assets/Scripts/DynamicQuadDeformer.cs:75-98 | saving then loading with one prefix puts every point back where it was, when the names differ |
| PinkButtons.Shuffle | Assets/Scripts/PinkButtonGameManager.cs:129-136 | the shuffled list is a permutation of the original |
| PinkButtons.DistinctOccursOnce | Assets/Scripts/PinkButtonGameManager.cs:96-100 | a list without repeats holds each value at most once |
| PinkButtons.RepeatOccursTwice | Assets/Scripts/PinkButtonGameManager.cs:96-100 | a repeated value occurs at least twice |
| PinkButtons.PermutationOfRange | Assets/Scripts/PinkButtonGameManager.cs:96-100 | a permutation of 0..n-1 has no repeats and only values in range |
| PinkButtons.CellCount | Assets/Scripts/PinkButtonGameManager.cs:83-87 | at least one cell, and when at least one cell fits, the whole cells never exceed the plane's extent; on a plane narrower than one cell the single forced cell is wider than the plane |
| PinkButtons.CellCountFits | Assets/Scripts/PinkButtonGameManager.cs:86-87 | the floored cell count times the cell size fits in the extent |
| PinkButtons.CellOfIndex | Assets/Scripts/PinkButtonGameManager.cs:104-106 | a cell index below the cell count names a column and a row inside the grid |
| PinkButtons.CellsOfDistinctIndices | Assets/Scripts/PinkButtonGameManager.cs:104-106 | different cell indices give different cells |
| PinkButtons.Kept | Assets/Scripts/PinkButtonGameManager.cs:62-73 | the entries a frame keeps, in order; KeptFiredPartition states they are exactly the live buttons out of range |
| PinkButtons.Fired | Assets/Scripts/PinkButtonGameManager.cs:62-73 | the buttons a frame fires, in the backward loop's order; KeptFiredPartition states they are exactly the live buttons in range |
| PinkButtons.KeptFiredPartition | Assets/Scripts/PinkButtonGameManager.cs:62-73 | every entry of a frame stays, fires, or is a destroyed entry; those that stay are exactly the live buttons out of range |
| PinkButtons.KeptFiredStep | Assets/Scripts/PinkButtonGameManager.cs:62-73 | the backward walk decides entry `i` in front of what it has already decided |
| PinkButtons.AllAppend | Assets/Scripts/PinkButtonGameManager.cs:138-162 | firing one more button appends its effect and its ending |
| PinkButtons.ListStep | Assets/Scripts/PinkButtonGameManager.cs:62-73 | visiting entry `i` (dropping it unless it stays) moves the list's walk invariant from `i` to `i - 1`, adding the entry to the fired buttons exactly when it fires |
| PinkButtons.LogsStep | Assets/Scripts/PinkButtonGameManager.cs:138-162 | a firing that appends the button to the destroyed list, its effect, its ending and its reload keeps the logs equal to the starting logs plus those of all fired buttons, with one reload per ending when reloads are on, and the game ended exactly when some fired button ends it |
| PinkButtons.WalkStep | Assets/Scripts/PinkButtonGameManager.cs:62-73 | one visited entry moves the whole walk invariant (the list and the logs) from `i` to `i - 1` |
| PinkButtons.EndingsIffEndingReaction | Assets/Scripts/PinkButtonGameManager.cs:151-161 | a frame ends the game exactly when some fired button is Soul or Dash |
| PinkButtons.PrefabIdentifiesReaction | Assets/Scripts/PinkButtonGameManager.cs:164-173 | with three distinct prefabs, the prefab tells the reaction apart |
| PinkButtons.GetPrefabForReaction | Assets/Scripts/PinkButtonGameManager.cs:164-173 | the prefab of each reaction type; PrefabIdentifiesReaction states that distinct prefabs tell the reactions apart |
| PinkButtons.PinkButtonGameManager.constructor | Assets/Scripts/PinkButtonGameManager.cs:12-42 | the inspector defaults, with no buttons and no game ended |
| PinkButtons.PinkButtonGameManager.EndGame | Assets/Scripts/PinkButtonGameManager.cs:189-193 | the ending is recorded, and a reload is scheduled only when enabled with a positive delay |
| PinkButtons.PinkButtonGameManager.TriggerReaction | Assets/Scripts/PinkButtonGameManager.cs:138-187 | the effect spawns if its prefab is assigned and the button is destroyed; Soul loses, Dash wins, BlueExplosion does not end the game |
| PinkButtons.PinkButtonGameManager.VisitEntry | Assets/Scripts/PinkButtonGameManager.cs:64-72 | a destroyed entry is dropped; a button in range fires, is dropped and adds its effect, its ending and exactly one reload per ending when reloads are on; any other entry stays and nothing else changes |
| PinkButtons.PinkButtonGameManager.UpdateStep | Assets/Scripts/PinkButtonGameManager.cs:62-73 | one iteration of the backward loop keeps the walk's invariant |
| PinkButtons.PinkButtonGameManager.Update | Assets/Scripts/PinkButtonGameManager.cs:58-74 | nothing happens once the game has ended or with no capsule; otherwise the list keeps exactly the live buttons out of range, and the rest fire in backward order with their effects and endings, and one reload is scheduled per ending when reloads are on |
| PinkButtons.PinkButtonGameManager.SpawnButtons | Assets/Scripts/PinkButtonGameManager.cs:76-127 | the count is capped to the number of cells, and the new buttons go one per distinct cell, inside their cell, at the spawn height |
| PinkButtons.ShuffledCells | Assets/Scripts/PinkButtonGameManager.cs:96-100 | the shuffled cell list holds every cell index exactly once |
| PinkButtons.SpawnInCell | Assets/Scripts/PinkButtonGameManager.cs:104-124 | the button sits within a quarter cell of its cell's centre, at the spawn height |
| PinkButtons.SpawnInCells | Assets/Scripts/PinkButtonGameManager.cs:102-126 | one well-placed button per listed cell, no two in the same cell |
| ChickenGamePlayer.OccurrencesAppend | Assets/Script/Person.cs:117-133 | the count of a cue in joined cue lists is the sum of the counts |
| ChickenGamePlayer.Collect | Assets/Script/Person.cs:80-95 | one collection; CollectCounts states it |
| ChickenGamePlayer.EndLoss | Assets/Script/Person.cs:100-112 | the loss, latched; BombEndsGame and HandleStep state it |
| ChickenGamePlayer.OnCollision | Assets/Script/Person.cs:43-61 | the collision handler on the state; EndedHandlersInert and BombEndsGame state it |
| ChickenGamePlayer.OnTrigger | Assets/Script/Person.cs:66-75 | the trigger handler on the state; EndedHandlersInert and HandleStep state it |
| ChickenGamePlayer.EndedHandlersInert | Assets/Script/Person.cs:43-75 | once the game has ended, both handlers change nothing and play nothing |
| ChickenGamePlayer.BombEndsGame | Assets/Script/Person.cs:43-61 | a bomb in a running game ends it with exactly the losing cue and collects nothing |
| ChickenGamePlayer.CollectCounts | Assets/Script/Person.cs:80-95 | a collection adds one chicken, never ends the game and always rewards; it wins when it first reaches the total |
| ChickenGamePlayer.HandleStep | Assets/Script/Person.cs:43-112 | one event only closes the ended and won latches, raises the winning cue exactly when it closes the won latch and the losing cue exactly when it closes the ended latch |
| ChickenGamePlayer.RunLatches | Assets/Script/Person.cs:43-112 | over any run of events, the ended and won flags stay set, the winning cue plays at most once and the losing cue at most once, and the game ends exactly when the losing cue has played |
| ChickenGamePlayer.Person.constructor | Assets/Script/Person.cs:13-28 | four chickens to collect, full volumes, nothing collected |
| ChickenGamePlayer.Person.PlaySound | Assets/Script/Person.cs:117-133 | a cue is heard only when its clip is assigned, at its own volume |
| ChickenGamePlayer.Person.CollectChicken | Assets/Script/Person.cs:80-95 | the state follows `Collect`, its cues are heard, and the chicken is destroyed |
| ChickenGamePlayer.Person.EndGameLoss | Assets/Script/Person.cs:100-112 | the state follows `EndLoss`, and time stops on the first loss |
| ChickenGamePlayer.Person.OnCollisionEnter | Assets/Script/Person.cs:43-61 | the state follows `OnCollision`, and time stops only on a bomb in a running game |
| ChickenGamePlayer.Person.OnTriggerEnter | Assets/Script/Person.cs:66-75 | the state follows `OnTrigger`, a collected chicken is destroyed, and time never stops |
| ChickenGameChicken.TurnEffect | Assets/Script/Chicken.cs:132-155 | a turn that takes effect adds 180 to the yaw, sets pitch 0 and roll 90, stops the chicken and stamps the time |
| ChickenGameChicken.TurnDuringCooldown | Assets/Script/Chicken.cs:134-137 | a cooldown-respecting turn within 0.5 s of the last one changes nothing |
| ChickenGameChicken.TurnTwiceSameTime | Assets/Script/Chicken.cs:132-155 | a second cooldown-respecting turn at the same instant changes nothing |
| ChickenGameChicken.TwoTurnsFullCircle | Assets/Script/Chicken.cs:132-155 | two effective turns bring the heading a full circle round |
| ChickenGameChicken.TickWhileTurning | Assets/Script/Chicken.cs:50-65 | a turning chicken is not moved, and it stays turning until the cooldown is strictly exceeded |
| ChickenGameChicken.TickKeepsPose | Assets/Script/Chicken.cs:50-65 | a frame never starts a turn and never changes the rotation or the time stamp |
| ChickenGameChicken.Turn | Assets/Script/Chicken.cs:132-155 | a turn on the state; TurnEffect, TurnDuringCooldown, TurnTwiceSameTime and TwoTurnsFullCircle state it |
| ChickenGameChicken.Tick | Assets/Script/Chicken.cs:50-65 | a frame on the state; TickWhileTurning and TickKeepsPose state it |
| ChickenGameChicken.ToLowerFoldsCase | Assets/Script/Chicken.cs:108-129 | the lower-cased name has no ASCII capital left, lower-casing twice is lower-casing once, and names that differ only in the case of ASCII letters lower-case alike |
| ChickenGameChicken.IsFence | Assets/Script/Chicken.cs:95-106 | true exactly for a Fence tag, or for "Fence" in the name of the object or of an ancestor |
| ChickenGameChicken.Chicken.constructor | Assets/Script/Chicken.cs:5-48 | move speed 2, no turn yet, and the top-down pose |
| ChickenGameChicken.Chicken.NotChickenOfItself | Assets/Script/Chicken.cs:108-129 | a chicken's own object is never "another chicken" |
| ChickenGameChicken.Chicken.IsChicken | Assets/Script/Chicken.cs:108-129 | another `Chicken` component, or a name containing "chicken" in any case on another object; NotChickenOfItself states the second half |
| ChickenGameChicken.Chicken.Rotate180Degrees | Assets/Script/Chicken.cs:132-155 | the state follows `Turn` |
| ChickenGameChicken.Chicken.FixedUpdate | Assets/Script/Chicken.cs:50-65 | the state follows `Tick` |
| ChickenGameChicken.Chicken.OnCollisionEnter | Assets/Script/Chicken.cs:67-89 | a fence turns this chicken whatever the cooldown; otherwise nothing happens during the cooldown, and after it another chicken turns both, subject to the other's own cooldown |

## Left out

- Rendering, audio playback, logging and scene loading are left out. Object creation and destruction are recorded as event lists.
- Engine-provided values are parameters and are not modelled: the physics engine, `Time.time`, key presses, the motion-capture stream and `Transform.forward`.
- Floating-point rounding is not modelled. Floats are exact reals, and `Mathf.FloorToInt` is the exact floor.
- Quaternions are not modelled. Rotations are Euler triples:
  - the translator records the two `Rotate` calls as the triples it passes;
  - the chicken's yaw is not normalised to [0,360).
- `TrilinearInterpolator.Start` is left out. It only logs one example mapping.
- `CalibrationSaveLoad.SaveCalibration` and `LoadCalibration` are left out. They are a file dialog and file I/O.
- The JSON codec is taken to be faithful. `GetCalibration` and `ApplyCalibration` work on the decoded record directly.
- CalibrationStore.CalibrationSaveLoad.ApplyCalibration: allocates fresh corner arrays. In the engine, the component shares the decoded record's arrays, which no other code keeps, so that aliasing is not modelled.
- The unity player preferences are a map held by one object. Disk persistence across runs is not modelled.
- A corner point's world position is its parent's origin plus its local position. Parent rotation and scale are not modelled.
- The corner markers of the translator are a sequence of positions. They are assumed to be eight distinct transforms.
- ProjectorSizing.ProjectorSize.Valid: assumes the projector plane, the background plane and every corner plane are distinct objects. The inspector references may alias in the engine, where the later write would win. `UpdatePlaneScale` requires it, and through `CalibrationSaveLoad.Valid` so do `RunHooks`, `ApplyCalibration` and `SaveThenLoad`.
- QuadDeformer.DynamicQuadDeformer.Valid: assumes the four corner points are distinct objects. The inspector references may alias in the engine. `LoadPointPositions`, `ResetPointPositions`, `Start`, `Update` and `SaveThenLoad` require it.
- Trilinear.TrilinearInterpolate: an empty source array or fewer than eight destination corners is an index error in the engine. The function requires both instead of modelling the exception.
- Trilinear.InterpolateCube: requires eight destination corners; with fewer the engine stops with an index error, which is not modelled.
- Trilinear.GetMinCorner: requires a non-empty array; on an empty one the engine's read of `corners[0]` is an index error, which is not modelled.
- Trilinear.GetMaxCorner: requires a non-empty array, for the same reason as `GetMinCorner`.
- Trilinear.TrilinearInterpolator.Map: requires the same array lengths as `TrilinearInterpolate`, for the same reason.
- ProjectorTranslator.OptitrackProjectorTranslator.Update: requires the same array lengths as `TrilinearInterpolate`; a frame that would fail on the mapping is not modelled.
- The corner arrays are non-null references in the model. A null array, a null-reference error in the engine, is not modelled (`GetMinVector` and `GetMaxVector` do model their null case).
- PinkButtons.SpawnInCell: positions are the pre-transform offsets `localOffset` plus the spawn height. `TransformPoint` (which would scale the offset by the plane's scale a second time, then rotate and translate it) and `up` are not applied.
- PinkButtons.PinkButtonGameManager.SpawnButtons: the buttons it adds carry those pre-transform offsets. `Update` compares them with the capsule's world position, which agrees with the engine only for a plane at the origin with no rotation and unit scale.
- `PinkButtonGameManager.Start` is not a separate member. It only calls `SpawnButtons` under the same guard that `SpawnButtons` repeats, and that method models both.
- `PinkButtonGameManager.ReloadScene` is a scene load. It is counted in `reloadsScheduled`.
- `Person.Start` is left out. It only creates the audio source.
- ChickenGameChicken.ToLower: lower-cases ASCII letters only. Culture-aware case mapping is not modelled.
- These context files are not part of this model: `OptitrackTrainedMarkerset`, `WebcamTexture`, `Gem`, `Spinner`, `PinkButtonReaction` (beyond its reaction type) and the inspector editor scripts.
