/** The enums the QML side sets. A value outside the declared variants can
    reach Rust through the integer representation; `Unknown` stands for
    any such value. */
module QtEnums {

  datatype GizmoOrientation = Global | Local | Unknown

  datatype TransformPivotPoint = MedianPoint | IndividualOrigins | Unknown

  datatype GizmoModeOverride =
    | NoOverride
    | RotateView | RotateX | RotateY | RotateZ
    | TranslateView | TranslateX | TranslateY | TranslateZ
    | TranslateXY | TranslateXZ | TranslateYZ
    | ScaleUniform | ScaleX | ScaleY | ScaleZ
    | ScaleXY | ScaleXZ | ScaleYZ
    | Unknown

  /** `Default` for the three enums. */
  const DefaultOrientation: GizmoOrientation := Global
  const DefaultPivotPoint: TransformPivotPoint := MedianPoint
  const DefaultModeOverride: GizmoModeOverride := NoOverride
}
