/** The interface of the external `transform_gizmo` engine, as far as the
    host code uses it. Its picking, drag accumulation, snapping, transform
    composition and tessellation are not part of this model: the engine is
    a record of functions (`Engine`) that the host is given, and its
    internal state is the type parameter `G`. */
module Engine {
  import opened Vectors

  /** The engine's manipulation modes. */
  datatype GizmoMode =
    | RotateView | RotateX | RotateY | RotateZ
    | TranslateView | TranslateX | TranslateY | TranslateZ
    | TranslateXY | TranslateXZ | TranslateYZ
    | ScaleUniform | ScaleX | ScaleY | ScaleZ
    | ScaleXY | ScaleXZ | ScaleYZ

  /** Every mode the engine knows. */
  const AllModes: set<GizmoMode> := {
    RotateView, RotateX, RotateY, RotateZ,
    TranslateView, TranslateX, TranslateY, TranslateZ,
    TranslateXY, TranslateXZ, TranslateYZ,
    ScaleUniform, ScaleX, ScaleY, ScaleZ,
    ScaleXY, ScaleXZ, ScaleYZ
  }

  lemma AllModesComplete(m: GizmoMode)
    ensures m in AllModes
  {
  }

  datatype GizmoOrientation = Global | Local

  datatype TransformPivotPoint = MedianPoint | IndividualOrigins

  /** The engine's view of one frame's cursor state. */
  datatype Interaction = Interaction(cursorPos: Point, hovered: bool, dragStarted: bool, dragging: bool)

  /** `GizmoInteraction::default()`: cursor at the origin, every flag off. */
  const DefaultInteraction: Interaction := Interaction(Point(0.0, 0.0), false, false, false)

  /** A quaternion with vector part `v` and scalar part `s`. */
  datatype Quat = Quat(v: Vec3, s: real)

  /** The engine's target transform. */
  datatype Transform = Transform(translation: Vec3, rotation: Quat, scale: Vec3)

  datatype Rect = Rect(min: Point, max: Point)

  datatype Visuals = Visuals(
    xColor: Color, yColor: Color, zColor: Color, sColor: Color,
    inactiveAlpha: real, highlightAlpha: real, strokeWidth: real, gizmoSize: real)

  /** The part of `transform_gizmo::GizmoConfig` the host fills in, except
      the view and projection matrices. */
  datatype GizmoConfig = GizmoConfig(
    viewport: Rect,
    modes: set<GizmoMode>,
    modeOverride: Option<GizmoMode>,
    orientation: GizmoOrientation,
    pivotPoint: TransformPivotPoint,
    snapping: bool,
    snapAngle: real,
    snapDistance: real,
    snapScale: real,
    visuals: Visuals,
    pixelsPerPoint: real)

  datatype Option<T> = None | Some(value: T)

  /** The draw data the engine produces: parallel vertex and colour lists
      and a triangle index list. */
  datatype DrawData = DrawData(vertices: seq<Vec2>, colors: seq<Rgba>, indices: seq<U32>)

  ghost predicate WellFormedDrawData(d: DrawData) {
    && |d.colors| == |d.vertices|
    && |d.indices| % 3 == 0
    && forall k :: 0 <= k < |d.indices| ==> d.indices[k] < |d.vertices|
  }

  /** Draw data as the engine promises it. */
  type ValidDrawData = d: DrawData | WellFormedDrawData(d) witness DrawData([], [], [])

  /** `GizmoDrawData::default()` */
  const EmptyDrawData: ValidDrawData := DrawData([], [], [])

  /** The engine calls the host makes: `Gizmo::new`, `update_config`,
      `update`, `pick_preview` and `draw`. `update` yields the new engine
      state and, when the interaction changed the targets, the updated
      transforms (the accompanying `GizmoResult` is not used by the host). */
  datatype Engine<!G> = Engine(
    create: GizmoConfig -> G,
    updateConfig: (G, GizmoConfig) -> G,
    update: (G, Interaction, seq<Transform>) -> (G, Option<seq<Transform>>),
    pickPreview: (G, Point) -> bool,
    draw: G -> ValidDrawData)
}
