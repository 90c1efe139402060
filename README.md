# Qt transform gizmo: a Dafny model of the host layer

This project models the layer that wraps a 3D transform gizmo engine (the
`transform_gizmo` crate) in Qt Quick items, and it proves properties of that
model. The engine handles picking, drag accumulation, snapping, composition
and mesh generation. Its source is not part of this model, so its five calls
(`Gizmo::new`, `update_config`, `update`, `pick_preview`, `draw`) are
arbitrary total functions gathered in the record `Engine.Engine`. `draw` is
assumed to return well-formed draw data: parallel vertex and colour lists, and
every index naming a vertex.

The model follows the four parts of the host:

- **Configuration derivation** (`Floats`, `QtEnums`, `Configuration`, after
  `src/gizmo/src/gizmo.rs`):
  - the three Qt-to-engine enum conversions, with their fall-backs for
    unknown values;
  - the enabled-mode set built from eight flags by successive inserts;
  - scalar sanitisation: a finite value becomes its absolute value, and a
    non-finite one becomes a fixed default.

  `Float = Finite(real) | NonFinite` stands for an IEEE value with its
  `is_finite` test.
- **The host protocol** (`GizmoHost.Gizmo`, after `src/gizmo/src/gizmo.rs`):
  - the lazily created engine gizmo;
  - the `gizmo_updated_since_last_draw` flag;
  - the last interaction, replayed with `drag_started` cleared before a draw
    that no update preceded;
  - the conversion between engine transforms and the Qt target list.

  A ghost log of engine calls states the engine's requirement: every `draw`
  follows an `update` made since the previous `draw`. Every public method
  keeps it.
- **Pointer events** (`InteractionItem`, after `src/gizmo/cpp/gizmo.h`): the
  `_hovering` / `_dragging` state machine of `GizmoInteractionItem`.
  - The answer of the virtual `pickPreview` is a parameter of the handlers.
  - The `updateInteraction` calls are recorded in a field.
  - A pure `Step` function specifies each handler, and lemmas relate whole
    event sequences to what the engine was last told.
- **Buffer marshalling** (`PaintNode`, `Targets`, after
  `src/gizmo/cpp/gizmo.cpp`):
  - the copy of draw data into a geometry node;
  - the target count and the extraction of the target list into three
    arrays, with defaults for missing keys;
  - the packing of three lists back into a target list.

  A QVariant target list is a sequence of string-keyed maps.
- **Bézier sampling** (`BezierCurve`, after
  `src/bezier_curve/cpp/bezier_curve.cpp`):
  - the loop that fills a line strip with `segmentCount` samples of a cubic
    Bernstein polynomial, scaled by the item size;
  - arithmetic is over `real`.

`gizmo_config` keeps the magnitude of every finite snap value, so 0 stays 0,
and falls back to a default only for a non-finite value.
`ConfigScalarsSanitised` therefore promises non-negative scalars, and positive
ones only for the fall-backs.

## Model

| member | source | states |
|---|---|---|
| Floats.Sanitize | src/gizmo/src/gizmo.rs:648-652 | the sanitised value is never negative; a finite input gives a value of the same magnitude (its absolute value), a non-finite one the default |
| Floats.SanitizeIgnoresSign | src/gizmo/src/gizmo.rs:648-652 | a finite value and its negation sanitise to the same value |
| Configuration.OrientationFromQt | src/gizmo/src/gizmo.rs:258-269 | the result is `Local` exactly when the Qt value is `Local`; `Global` and every unknown value give `Global` |
| Configuration.PivotPointFromQt | src/gizmo/src/gizmo.rs:277-290 | the result is `IndividualOrigins` exactly when the Qt value is; every other value gives `MedianPoint` |
| Configuration.OverrideFor | src/gizmo/src/gizmo.rs:298-322 | every engine mode has a Qt override that is neither `NoOverride` nor unknown |
| Configuration.ModeOverrideFromQt | src/gizmo/src/gizmo.rs:298-322 | the result is `None` exactly for `NoOverride` and unknown values; otherwise it is the mode whose override is the input |
| Configuration.ModeOverrideRoundTrip | src/gizmo/src/gizmo.rs:298-322 | converting a mode's override gives back that mode |
| Configuration.ModeOverrideInjective | src/gizmo/src/gizmo.rs:298-322 | two Qt values that convert to the same mode are the same value |
| Configuration.UnknownEnumsFallBackToDefaults | src/gizmo/src/gizmo.rs:252-322 | an unknown orientation, pivot point or override converts like the enum's `Default` value: `Global`, `MedianPoint`, no override |
| Configuration.EnabledModes | src/gizmo/src/gizmo.rs:668-705 | a mode is in the set exactly when the flag of its group is on |
| Configuration.GroupsFollowFlagsDetermines | src/gizmo/src/gizmo.rs:668-705 | a set in which each group is present exactly when its flag is on is the specified mode set |
| Configuration.BuildModes | src/gizmo/src/gizmo.rs:668-705 | the inserts leave every group present exactly when its flag is on and absent otherwise |
| Configuration.AllFlagsEnableAllModes | src/gizmo/src/gizmo.rs:412-419 | with the eight flags `initialize` sets, all eighteen engine modes are enabled |
| Configuration.NoFlagsEnableNoMode | src/gizmo/src/gizmo.rs:668-705 | with every flag off no mode is enabled |
| Configuration.EnabledModesMonotonic | src/gizmo/src/gizmo.rs:668-705 | turning flags on never removes a mode |
| Configuration.ConfigOf | src/gizmo/src/gizmo.rs:638-774 | the configuration enables a mode exactly when its group's flag is on, has no override exactly for `NoOverride` and unknown values, and holds only non-negative scalars |
| Configuration.ConfigScalarsSanitised | src/gizmo/src/gizmo.rs:648-748 | every scalar of the derived configuration (snap angle, distance, scale, pixels per point, both alphas, stroke width, gizmo size) is non-negative; a non-finite snap increment becomes a positive default |
| Configuration.InitialConfig | src/gizmo/src/gizmo.rs:404-430 | the configuration of a freshly initialised item enables every mode, has no override, `Global`, `MedianPoint`, the engine's snap defaults, pixels per point 1 and the visual values 0.7, 1.0, 4.0, 75.0 |
| PaintNode.GeometryNode.constructor | src/gizmo/cpp/gizmo.cpp:33-42 | a new node has buffers of the requested vertex and index counts |
| PaintNode.GeometryNode.Allocate | src/gizmo/cpp/gizmo.cpp:43-48 | reallocation gives buffers of the requested counts (fresh, so that the copy loops may write them) |
| PaintNode.ColoredPoints | src/gizmo/cpp/gizmo.cpp:54-66 | vertex i takes the position of vertex i and the colour of colour i, and there are as many as input vertices |
| PaintNode.GizmoUpdatePaintNode | src/gizmo/cpp/gizmo.cpp:14-77 | under the function's assertions: empty vertices give a null node; otherwise the node (the old one when there was one, else a new one) holds exactly the vertices with their colours and exactly the indices, in order |
| Targets.PositionOf | src/gizmo/cpp/gizmo.cpp:96-101 | a target's position is its stored vector; a missing key or a value of another kind reads as (0, 0, 0) |
| Targets.RotationOf | src/gizmo/cpp/gizmo.cpp:96-102 | a target's rotation is its stored vector; a missing key reads as the identity (0, 0, 0, 1), a value of another kind as zero |
| Targets.ScaleOf | src/gizmo/cpp/gizmo.cpp:96-103 | a target's scale is its stored vector; a missing key reads as (1, 1, 1), a value of another kind as zero |
| Targets.TargetCount | src/gizmo/cpp/gizmo.cpp:78-82 | the count is the length of each of the three lists the extraction fills |
| Targets.EmptyEntryIsIdentity | src/gizmo/cpp/gizmo.cpp:96-99 | a target without the three keys reads as no translation, the identity rotation (0, 0, 0, 1) and unit scale |
| Targets.Positions | src/gizmo/cpp/gizmo.cpp:92-101 | one position per target, each read with its default |
| Targets.Rotations | src/gizmo/cpp/gizmo.cpp:92-102 | one rotation per target, each read with its default |
| Targets.Scales | src/gizmo/cpp/gizmo.cpp:92-103 | one scale per target, each read with its default |
| Targets.ExtractTargets | src/gizmo/cpp/gizmo.cpp:84-105 | given three slices of the list's length, the loop fills slot i of each with what target i reads as |
| Targets.TransformsToVariant | src/gizmo/cpp/gizmo.cpp:107-125 | for inputs of equal length, the loop builds the packed list: one map per index, in order |
| Targets.PackedEntries | src/gizmo/cpp/gizmo.cpp:112-124 | the packed list has the inputs' length, and element i maps exactly "position", "rotation" and "scale" to the i-th inputs |
| Targets.PackedRoundTrip | src/gizmo/cpp/gizmo.cpp:78-124 | the count of a packed list is the input length, and extracting it gives back the three input lists |
| Targets.ReadBackRoundTrip | src/gizmo/cpp/gizmo.cpp:84-124 | a list whose every target holds exactly the three keys with values of the right types packs back to itself after extraction |
| InteractionItem.HoverMoveAsWritten | src/gizmo/cpp/gizmo.h:56-76 | the hover move as written: dragging cleared, hovering set to the pick result, and a call (accepted) exactly when the pick succeeded or the item was hovering |
| InteractionItem.HoverMoveNotifying | src/gizmo/cpp/gizmo.h:56-76 | the corrected hover move: as above, but a call is also made when the item was dragging |
| InteractionItem.Step | src/gizmo/cpp/gizmo.h:26-132 | every handler makes at most one call, makes one exactly when it accepts the event, and reads `hovered` and `dragging` from the flags at the time of the call; an ignored event changes nothing |
| InteractionItem.StepCallsWellFormed | src/gizmo/cpp/gizmo.h:129-132 | no call reports dragging without hovering, and a drag start is always a hovered drag |
| InteractionItem.DragStartOnlyFromPress | src/gizmo/cpp/gizmo.h:78-94 | a call with `dragStarted` comes exactly from an accepted press; a press is accepted exactly when the pick succeeds, then sets dragging and reports (pos, true, true, true); a rejected press changes nothing and makes no call |
| InteractionItem.MouseReleaseAndMove | src/gizmo/cpp/gizmo.h:96-120 | release and move without a drag are ignored with no change; a release ends the drag with one non-dragging call; a move during a drag keeps the state and reports (pos, true, false, true) |
| InteractionItem.HoverEnterAndLeave | src/gizmo/cpp/gizmo.h:26-54 | hover enter sets hovering and calls exactly when the pick succeeds; hover leave clears hovering and calls only when the item was hovering, and otherwise does nothing |
| InteractionItem.RunCallsWellFormed | src/gizmo/cpp/gizmo.h:129-132 | every call over any admissible event sequence is well formed |
| InteractionItem.RunKeepsEngineInformed | src/gizmo/cpp/gizmo.h:26-132 | with corrected hover moves, after any admissible event sequence the last call made describes the item's current hover and drag flags |
| InteractionItem.HoverMoveAsWrittenLosesDragEnd | src/gizmo/cpp/gizmo.h:56-76 | as written, an accepted press followed by a hover move that misses leaves the item not dragging while the last call still reports a drag |
| InteractionItem.GizmoInteractionItem.constructor | src/gizmo/cpp/gizmo.h:18-23 | a new item neither hovers nor drags and has made no call |
| InteractionItem.GizmoInteractionItem.CallUpdateInteraction | src/gizmo/cpp/gizmo.h:129-132 | appends the call built from the current flags |
| InteractionItem.GizmoInteractionItem.HoverEnterEvent | src/gizmo/cpp/gizmo.h:26-40 | the new flags, the acceptance and the appended calls are those `Step` specifies |
| InteractionItem.GizmoInteractionItem.HoverLeaveEvent | src/gizmo/cpp/gizmo.h:42-54 | the new flags, the acceptance and the appended calls are those `Step` specifies |
| InteractionItem.GizmoInteractionItem.HoverMoveEvent | src/gizmo/cpp/gizmo.h:56-76 | the new flags, the acceptance and the appended calls are those `Step` specifies (the corrected hover move) |
| InteractionItem.GizmoInteractionItem.MousePressEvent | src/gizmo/cpp/gizmo.h:78-94 | the new flags, the acceptance and the appended calls are those `Step` specifies |
| InteractionItem.GizmoInteractionItem.MouseReleaseEvent | src/gizmo/cpp/gizmo.h:96-108 | the new flags, the acceptance and the appended calls are those `Step` specifies |
| InteractionItem.GizmoInteractionItem.MouseMoveEvent | src/gizmo/cpp/gizmo.h:110-120 | the new flags, the acceptance and the appended calls are those `Step` specifies |
| BezierCurve.LineStripNode.constructor | src/bezier_curve/cpp/bezier_curve.cpp:27-39 | a new node has a buffer of `segmentCount` vertices |
| BezierCurve.LineStripNode.Allocate | src/bezier_curve/cpp/bezier_curve.cpp:40-45 | reallocation gives a buffer of `segmentCount` vertices (fresh, so that the fill loop may write it) |
| BezierCurve.Param | src/bezier_curve/cpp/bezier_curve.cpp:52 | the parameter is not a number exactly when there is a single segment (0 / 0) |
| BezierCurve.ParamInUnitAndIncreasing | src/bezier_curve/cpp/bezier_curve.cpp:50-52 | with at least two samples every parameter lies in [0, 1], strictly increasing with the index |
| BezierCurve.ParamEnds | src/bezier_curve/cpp/bezier_curve.cpp:52 | the first parameter is 0 and the last is 1 |
| BezierCurve.BernsteinPartitionOfUnity | src/bezier_curve/cpp/bezier_curve.cpp:53-55 | the four weights sum to 1 for every t, so a sample is an affine combination of the control points |
| BezierCurve.BernsteinAtEnds | src/bezier_curve/cpp/bezier_curve.cpp:53-55 | at t = 0 all weight is on p1, at t = 1 all on p4 |
| BezierCurve.BernsteinNonNegative | src/bezier_curve/cpp/bezier_curve.cpp:53-55 | on [0, 1] every weight is non-negative |
| BezierCurve.CurveCoordAtEnds | src/bezier_curve/cpp/bezier_curve.cpp:55 | the curve starts at the first control point and ends at the last |
| BezierCurve.Vertices | src/bezier_curve/cpp/bezier_curve.cpp:49-61 | one vertex per segment count, vertex i being the scaled sample at parameter i |
| BezierCurve.BezierCurveUpdatePaintNode | src/bezier_curve/cpp/bezier_curve.cpp:16-65 | the node (the old one when there was one) gets a fresh buffer whose contents are exactly the specified vertices |
| BezierCurve.VertexAtEnds | src/bezier_curve/cpp/bezier_curve.cpp:55-60 | vertex 0 is p1 scaled by the item size, the last vertex p4 scaled the same way |
| BezierCurve.FirstAndLastVertex | src/bezier_curve/cpp/bezier_curve.cpp:50-60 | the buffer starts at scaled p1 and ends at scaled p4 |
| BezierCurve.SingleSampleIsNotANumber | src/bezier_curve/cpp/bezier_curve.cpp:52 | with one segment the only vertex has non-number coordinates |
| BezierCurve.CurveCoordInUnit | src/bezier_curve/cpp/bezier_curve.cpp:55 | control coordinates in [0, 1] give curve coordinates in [0, 1] |
| BezierCurve.AxisInsideExtent | src/bezier_curve/cpp/bezier_curve.cpp:55-58 | such a coordinate scaled by a non-negative extent lies in [0, extent] |
| BezierCurve.VerticesInsideItem | src/bezier_curve/cpp/bezier_curve.cpp:50-61 | control points in the unit square give every vertex inside [0, width] × [0, height] |
| BezierCurve.CurveTranslates | src/bezier_curve/cpp/bezier_curve.cpp:55 | shifting all control coordinates shifts the curve by the same amount |
| BezierCurve.AxesIndependent | src/bezier_curve/cpp/bezier_curve.cpp:57-58 | x depends only on the width and the control points' x, y only on the height and their y |
| GizmoHost.TransformRoundTrip | src/gizmo/src/gizmo.rs:552-602 | packing a transform's rotation as (v.x, v.y, v.z, s) and reading it back with `from_xyzw` gives the transform back |
| GizmoHost.PositionOut | src/gizmo/src/gizmo.rs:547-551 | the Qt position of a transform is its translation, component by component |
| GizmoHost.RotationOut | src/gizmo/src/gizmo.rs:552-557 | the Qt rotation, read in x, y, z, w order, is the transform's quaternion: the vector part first, the scalar part last |
| GizmoHost.ScaleOut | src/gizmo/src/gizmo.rs:558-562 | the Qt scale of a transform is its scale, component by component |
| GizmoHost.TransformIn | src/gizmo/src/gizmo.rs:598-606 | the engine transform made of three Qt values gives back exactly those values: `from_xyzw` and the packing use the same component order |
| GizmoHost.PositionsOut | src/gizmo/src/gizmo.rs:545-565 | one Qt position per engine transform, in order |
| GizmoHost.RotationsOut | src/gizmo/src/gizmo.rs:545-565 | one Qt rotation per engine transform, in order |
| GizmoHost.ScalesOut | src/gizmo/src/gizmo.rs:545-565 | one Qt scale per engine transform, in order |
| GizmoHost.PackTransforms | src/gizmo/src/gizmo.rs:545-566 | the target list stored for the engine's transforms has one entry per transform, entry i mapping the three keys to the Qt values of transform i |
| GizmoHost.TransformsIn | src/gizmo/src/gizmo.rs:596-607 | one engine transform per extracted target |
| GizmoHost.EngineTransforms | src/gizmo/src/gizmo.rs:584-607 | the engine is handed one transform per target |
| GizmoHost.EngineTransformsOfPacked | src/gizmo/src/gizmo.rs:544-607 | the targets stored for the engine's transforms have its count and give the engine exactly those transforms, in order, on the next update |
| GizmoHost.UpdatePendingMeans | src/gizmo/src/gizmo.rs:781-791 | an update is pending exactly when some update in the call log is followed by no draw |
| GizmoHost.DrawsFollowUpdatesMeans | src/gizmo/src/gizmo.rs:781-791 | the log predicate holds exactly when every draw is preceded by an update with no draw in between |
| GizmoHost.Replayed | src/gizmo/src/gizmo.rs:784-788 | the replayed interaction never starts a drag, and is the default interaction before any |
| GizmoHost.Gizmo.constructor | src/gizmo/src/gizmo.rs:404-430 | the initialised item: initial settings, no target, no engine gizmo, flag off, no interaction, no engine call, protocol invariant holds |
| GizmoHost.Gizmo.GizmoConfig | src/gizmo/src/gizmo.rs:638-774 | the configuration built is the specified one for the current settings and size |
| GizmoHost.Gizmo.WithGizmo | src/gizmo/src/gizmo.rs:621-636 | the stored gizmo (reconfigured) or a new one runs the task and is stored back; an update sets the flag; a draw happens only with targets and visibility; the log grows by exactly the calls made |
| GizmoHost.Gizmo.UpdateInteractionImpl | src/gizmo/src/gizmo.rs:577-613 | the engine is updated with the interaction and the targets' transforms, the flag is set, and the engine's answer is returned |
| GizmoHost.Gizmo.UpdateInteraction | src/gizmo/src/gizmo.rs:529-575 | keeps the protocol invariant; the last interaction is the incoming one with `drag_started` cleared; when the engine returns transforms, the targets become their packing (emitted as the signal's value) and read back as exactly those transforms; otherwise the targets stay |
| GizmoHost.Gizmo.PickPreview | src/gizmo/src/gizmo.rs:615-619 | keeps the protocol invariant and the flag, and answers with the engine's pick for the current configuration |
| GizmoHost.Gizmo.ReplayIfStale | src/gizmo/src/gizmo.rs:781-791 | afterwards an update is pending: when the flag was off, the last (or default) interaction was replayed through an update; otherwise nothing changed |
| GizmoHost.Gizmo.UpdatePaintNode | src/gizmo/src/gizmo.rs:776-809 | keeps the protocol invariant (so the draw follows an update), leaves the flag off, draws only with targets and visibility, and the node holds exactly the draw data (null for none) |

## Left out

- The engine itself (picking, drag accumulation, snapping, composition, mesh generation) is an external crate. Its five calls are uninterpreted functions, and only the well-formedness of its draw data is assumed.
- The view and projection matrices (`view_matrix`, `projection_matrix` and the camera properties) are glam floating-point computations. The modelled configuration omits them.
- Floating-point rounding, the f64/f32 casts and the `static_cast<uchar>(c * 255)` colour conversion are left out. Coordinates are exact reals, and a colour is copied as it is.
- The DEFAULT_SNAP_* constants belong to the engine crate. The values used are stand-ins, and the proofs rely only on their being positive.
- Qt plumbing is left out:
  - deleting the old node when the draw data is empty;
  - materials, drawing modes, line width and `markDirty`;
  - `setKeepMouseGrab`;
  - `event->accept()`, which is modelled only as the handlers' boolean result;
  - the property-change `update()` hookups of `initialize`;
  - the `update()` request at the head of `update_interaction`.
- Signal emission is not modelled as such. The `transform_updated` signal appears only as the `emitted` result of `GizmoHost.Gizmo.UpdateInteraction`.
- The `GizmoResult` the engine returns beside the transforms is not modelled, because the host ignores it.
- The `take()` in `with_gizmo` is not modelled as a separate state. The engine gizmo is stored back before any other host method can observe it.
- QVariant conversion is left out. A target list is a sequence of maps, and an entry of the wrong type reads as a zero vector.
- BezierCurve.BezierCurveUpdatePaintNode: requires `segmentCount >= 0`, because allocating a negative vertex count is undefined behaviour in the source.
- GizmoHost.Gizmo.UpdatePaintNode: the node's vertex colours are the engine's RGBA reals, not the bytes the source computes.
- InteractionItem.GizmoInteractionItem.HoverMoveEvent: models the corrected hover move (see Findings), not the handler as written. The as-written handler is `InteractionItem.HoverMoveAsWritten`.

## Findings

| source | as written | input that shows it | evidently intended | confidence | as-written member | corrected member |
|---|---|---|---|---|---|---|
| src/gizmo/cpp/gizmo.h:56-76 | `hoverMoveEvent` clears `_dragging`, but it calls `updateInteraction` only when the pick succeeds or the item was hovering | an accepted press (the call reports dragging), then a hover move that misses while `_hovering` is false: no call is made, so the engine and the interaction `update_paint_node` replays still say dragging | clearing an active drag is reported with a non-dragging call, as a release is | medium, not executed | InteractionItem.HoverMoveAsWritten (counterexample InteractionItem.HoverMoveAsWrittenLosesDragEnd) | InteractionItem.HoverMoveNotifying (used by InteractionItem.Step; proved by InteractionItem.RunKeepsEngineInformed) |
