/** Deriving the engine's configuration from the item's settings
    (`gizmo_config` and the three enum conversions of gizmo.rs). */
module Configuration {
  import opened Floats
  import opened Vectors
  import E = Engine
  import Q = QtEnums

  // ---------------------------------------------------------------------
  // Enum conversions
  // ---------------------------------------------------------------------

  /** `From<GizmoOrientation>`: known variants are kept, anything else
      falls back to `Global`. */
  function OrientationFromQt(o: Q.GizmoOrientation): (r: E.GizmoOrientation)
    ensures r == E.Local <==> o == Q.Local
  {
    match o
    case Global => E.Global
    case Local => E.Local
    case Unknown => E.Global
  }

  /** `From<TransformPivotPoint>`: known variants are kept, anything else
      falls back to `MedianPoint`. */
  function PivotPointFromQt(p: Q.TransformPivotPoint): (r: E.TransformPivotPoint)
    ensures r == E.IndividualOrigins <==> p == Q.IndividualOrigins
  {
    match p
    case MedianPoint => E.MedianPoint
    case IndividualOrigins => E.IndividualOrigins
    case Unknown => E.MedianPoint
  }

  /** The QML variant named like an engine mode (the reference against
      which the override conversion is checked). */
  function OverrideFor(m: E.GizmoMode): (q: Q.GizmoModeOverride)
    ensures q != Q.NoOverride && q != Q.GizmoModeOverride.Unknown
  {
    match m
    case RotateView => Q.RotateView
    case RotateX => Q.RotateX
    case RotateY => Q.RotateY
    case RotateZ => Q.RotateZ
    case TranslateView => Q.TranslateView
    case TranslateX => Q.TranslateX
    case TranslateY => Q.TranslateY
    case TranslateZ => Q.TranslateZ
    case TranslateXY => Q.TranslateXY
    case TranslateXZ => Q.TranslateXZ
    case TranslateYZ => Q.TranslateYZ
    case ScaleUniform => Q.ScaleUniform
    case ScaleX => Q.ScaleX
    case ScaleY => Q.ScaleY
    case ScaleZ => Q.ScaleZ
    case ScaleXY => Q.ScaleXY
    case ScaleXZ => Q.ScaleXZ
    case ScaleYZ => Q.ScaleYZ
  }

  /** `From<GizmoModeOverride> for Option<GizmoMode>`: `NoOverride` and
      any unknown value mean "no override"; every other variant selects the
      identically named mode. */
  function ModeOverrideFromQt(q: Q.GizmoModeOverride): (r: E.Option<E.GizmoMode>)
    ensures r.None? <==> (q == Q.NoOverride || q == Q.GizmoModeOverride.Unknown)
    ensures r.Some? ==> OverrideFor(r.value) == q
  {
    match q
    case RotateView => E.Some(E.RotateView)
    case RotateX => E.Some(E.RotateX)
    case RotateY => E.Some(E.RotateY)
    case RotateZ => E.Some(E.RotateZ)
    case TranslateView => E.Some(E.TranslateView)
    case TranslateX => E.Some(E.TranslateX)
    case TranslateY => E.Some(E.TranslateY)
    case TranslateZ => E.Some(E.TranslateZ)
    case TranslateXY => E.Some(E.TranslateXY)
    case TranslateXZ => E.Some(E.TranslateXZ)
    case TranslateYZ => E.Some(E.TranslateYZ)
    case ScaleUniform => E.Some(E.ScaleUniform)
    case ScaleX => E.Some(E.ScaleX)
    case ScaleY => E.Some(E.ScaleY)
    case ScaleZ => E.Some(E.ScaleZ)
    case ScaleXY => E.Some(E.ScaleXY)
    case ScaleXZ => E.Some(E.ScaleXZ)
    case ScaleYZ => E.Some(E.ScaleYZ)
    case _ => E.None
  }

  /** Every engine mode can be selected as an override, by its own name. */
  lemma ModeOverrideRoundTrip(m: E.GizmoMode)
    ensures ModeOverrideFromQt(OverrideFor(m)) == E.Some(m)
  {
  }

  /** Distinct override variants select distinct modes. */
  lemma ModeOverrideInjective(a: Q.GizmoModeOverride, b: Q.GizmoModeOverride)
    requires ModeOverrideFromQt(a).Some?
    requires ModeOverrideFromQt(a) == ModeOverrideFromQt(b)
    ensures a == b
  {
  }

  /** The fallbacks for unknown values are the `Default` variants. */
  lemma UnknownEnumsFallBackToDefaults()
    ensures OrientationFromQt(Q.GizmoOrientation.Unknown) == OrientationFromQt(Q.DefaultOrientation) == E.Global
    ensures PivotPointFromQt(Q.TransformPivotPoint.Unknown) == PivotPointFromQt(Q.DefaultPivotPoint) == E.MedianPoint
    ensures ModeOverrideFromQt(Q.GizmoModeOverride.Unknown) == ModeOverrideFromQt(Q.DefaultModeOverride) == E.None
  {
  }

  // ---------------------------------------------------------------------
  // Enabled modes
  // ---------------------------------------------------------------------

  /** The eight "enabled" properties of the item. */
  datatype ModeFlags = ModeFlags(
    translate: bool, translateView: bool, translatePlane: bool,
    rotate: bool, rotateView: bool,
    scale: bool, scaleUniform: bool, scalePlane: bool)

  /** The flag that governs each mode. */
  function FlagFor(flags: ModeFlags, m: E.GizmoMode): bool {
    match m
    case TranslateX | TranslateY | TranslateZ => flags.translate
    case TranslateXY | TranslateXZ | TranslateYZ => flags.translatePlane
    case TranslateView => flags.translateView
    case RotateX | RotateY | RotateZ => flags.rotate
    case RotateView => flags.rotateView
    case ScaleX | ScaleY | ScaleZ => flags.scale
    case ScaleXY | ScaleXZ | ScaleYZ => flags.scalePlane
    case ScaleUniform => flags.scaleUniform
  }

  /** The mode set of a configuration, as a specification. */
  function EnabledModes(flags: ModeFlags): (modes: set<E.GizmoMode>)
    ensures forall m :: m in modes <==> FlagFor(flags, m)
  {
    forall m ensures m in E.AllModes { E.AllModesComplete(m); }
    set m | m in E.AllModes && FlagFor(flags, m)
  }

  /** `modes` holds each mode exactly when the flag of its group is on. */
  predicate GroupsFollowFlags(flags: ModeFlags, modes: set<E.GizmoMode>) {
    && (E.TranslateX in modes <==> flags.translate)
    && (E.TranslateY in modes <==> flags.translate)
    && (E.TranslateZ in modes <==> flags.translate)
    && (E.TranslateXY in modes <==> flags.translatePlane)
    && (E.TranslateXZ in modes <==> flags.translatePlane)
    && (E.TranslateYZ in modes <==> flags.translatePlane)
    && (E.TranslateView in modes <==> flags.translateView)
    && (E.RotateX in modes <==> flags.rotate)
    && (E.RotateY in modes <==> flags.rotate)
    && (E.RotateZ in modes <==> flags.rotate)
    && (E.RotateView in modes <==> flags.rotateView)
    && (E.ScaleX in modes <==> flags.scale)
    && (E.ScaleY in modes <==> flags.scale)
    && (E.ScaleZ in modes <==> flags.scale)
    && (E.ScaleXY in modes <==> flags.scalePlane)
    && (E.ScaleXZ in modes <==> flags.scalePlane)
    && (E.ScaleYZ in modes <==> flags.scalePlane)
    && (E.ScaleUniform in modes <==> flags.scaleUniform)
  }

  /** A set that follows the flags group by group is the specified mode set. */
  lemma GroupsFollowFlagsDetermines(flags: ModeFlags, modes: set<E.GizmoMode>)
    requires GroupsFollowFlags(flags, modes)
    ensures modes == EnabledModes(flags)
  {
    forall m ensures m in modes <==> FlagFor(flags, m) {
      match m
      case TranslateX => case TranslateY => case TranslateZ =>
      case TranslateXY => case TranslateXZ => case TranslateYZ =>
      case TranslateView =>
      case RotateX => case RotateY => case RotateZ =>
      case RotateView =>
      case ScaleX => case ScaleY => case ScaleZ =>
      case ScaleXY => case ScaleXZ => case ScaleYZ =>
      case ScaleUniform =>
    }
  }

  /** The mode set as `gizmo_config` builds it: each enabled flag inserts
      its group of modes. */
  method BuildModes(flags: ModeFlags) returns (modes: set<E.GizmoMode>)
    ensures GroupsFollowFlags(flags, modes)
  {
    modes := {};
    if flags.translate {
      modes := modes + {E.TranslateX, E.TranslateY, E.TranslateZ};
    }
    if flags.translatePlane {
      modes := modes + {E.TranslateXY, E.TranslateXZ, E.TranslateYZ};
    }
    if flags.translateView {
      modes := modes + {E.TranslateView};
    }
    if flags.rotate {
      modes := modes + {E.RotateX, E.RotateY, E.RotateZ};
    }
    if flags.rotateView {
      modes := modes + {E.RotateView};
    }
    if flags.scale {
      modes := modes + {E.ScaleX, E.ScaleY, E.ScaleZ};
    }
    if flags.scalePlane {
      modes := modes + {E.ScaleXY, E.ScaleXZ, E.ScaleYZ};
    }
    if flags.scaleUniform {
      modes := modes + {E.ScaleUniform};
    }
  }

  const AllFlags: ModeFlags := ModeFlags(true, true, true, true, true, true, true, true)
  const NoFlags: ModeFlags := ModeFlags(false, false, false, false, false, false, false, false)

  /** With every flag on (the item's initial state) all eighteen modes are
      enabled. */
  lemma AllFlagsEnableAllModes()
    ensures EnabledModes(AllFlags) == E.AllModes
  {
    forall m ensures m in E.AllModes { E.AllModesComplete(m); }
  }

  /** With every flag off no mode is enabled. */
  lemma NoFlagsEnableNoMode()
    ensures EnabledModes(NoFlags) == {}
  {
    forall m ensures m !in EnabledModes(NoFlags) {
      match m
      case TranslateX => case TranslateY => case TranslateZ =>
      case TranslateXY => case TranslateXZ => case TranslateYZ =>
      case TranslateView =>
      case RotateX => case RotateY => case RotateZ =>
      case RotateView =>
      case ScaleX => case ScaleY => case ScaleZ =>
      case ScaleXY => case ScaleXZ => case ScaleYZ =>
      case ScaleUniform =>
    }
  }

  /** Turning a flag on never removes a mode: a QML property that enables
      a group can only add handles to the gizmo, never hide another one. */
  lemma EnabledModesMonotonic(f: ModeFlags, g: ModeFlags)
    requires f.translate ==> g.translate
    requires f.translateView ==> g.translateView
    requires f.translatePlane ==> g.translatePlane
    requires f.rotate ==> g.rotate
    requires f.rotateView ==> g.rotateView
    requires f.scale ==> g.scale
    requires f.scaleUniform ==> g.scaleUniform
    requires f.scalePlane ==> g.scalePlane
    ensures EnabledModes(f) <= EnabledModes(g)
  {
  }

  // ---------------------------------------------------------------------
  // Settings and the derived configuration
  // ---------------------------------------------------------------------

  /** The engine's default snapping increments. They are defined in the
      engine crate; the model relies only on their being positive. */
  const DefaultSnapAngle: real := 0.19634954
  const DefaultSnapDistance: real := 0.1
  const DefaultSnapScale: real := 0.1

  /** Fallbacks `gizmo_config` uses for the other scalar settings. */
  const DefaultPixelsPerPoint: real := 1.0
  const DefaultInactiveAlpha: real := 0.7
  const DefaultHighlightAlpha: real := 1.0
  const DefaultStrokeWidth: real := 4.0
  const DefaultGizmoSize: real := 75.0

  /** The item properties `gizmo_config` reads (the camera properties feed
      the view and projection matrices, which are not modelled). */
  datatype Settings = Settings(
    orientation: Q.GizmoOrientation,
    pivotPoint: Q.TransformPivotPoint,
    snapping: bool,
    snapAngle: Float, snapDistance: Float, snapScale: Float,
    pixelsPerPoint: Float,
    flags: ModeFlags,
    modeOverride: Q.GizmoModeOverride,
    xColor: Color, yColor: Color, zColor: Color, sColor: Color,
    inactiveAlpha: Float, highlightAlpha: Float, strokeWidth: Float, gizmoSize: Float)

  /** The settings after `initialize`; the fields it does not set keep
      their `Default` values. */
  const InitialSettings: Settings := Settings(
    Q.DefaultOrientation, Q.DefaultPivotPoint, false,
    Finite(DefaultSnapAngle), Finite(DefaultSnapDistance), Finite(DefaultSnapScale),
    Finite(1.0),
    AllFlags,
    Q.DefaultModeOverride,
    Color(255, 0, 125), Color(0, 255, 125), Color(0, 125, 255), Color(255, 255, 255),
    Finite(0.7), Finite(1.0), Finite(4.0), Finite(75.0))

  /** The configuration `gizmo_config` derives, as a specification. */
  function ConfigOf(s: Settings, size: Size): (c: E.GizmoConfig)
    ensures forall m :: m in c.modes <==> FlagFor(s.flags, m)
    ensures c.modeOverride.None? <==> (s.modeOverride == Q.NoOverride || s.modeOverride == Q.GizmoModeOverride.Unknown)
    ensures c.snapAngle >= 0.0 && c.snapDistance >= 0.0 && c.snapScale >= 0.0 && c.pixelsPerPoint >= 0.0
    ensures c.visuals.inactiveAlpha >= 0.0 && c.visuals.highlightAlpha >= 0.0
    ensures c.visuals.strokeWidth >= 0.0 && c.visuals.gizmoSize >= 0.0
  {
    E.GizmoConfig(
      E.Rect(Point(0.0, 0.0), Point(size.width, size.height)),
      EnabledModes(s.flags),
      ModeOverrideFromQt(s.modeOverride),
      OrientationFromQt(s.orientation),
      PivotPointFromQt(s.pivotPoint),
      s.snapping,
      Sanitize(s.snapAngle, DefaultSnapAngle),
      Sanitize(s.snapDistance, DefaultSnapDistance),
      Sanitize(s.snapScale, DefaultSnapScale),
      E.Visuals(
        s.xColor, s.yColor, s.zColor, s.sColor,
        Sanitize(s.inactiveAlpha, DefaultInactiveAlpha),
        Sanitize(s.highlightAlpha, DefaultHighlightAlpha),
        Sanitize(s.strokeWidth, DefaultStrokeWidth),
        Sanitize(s.gizmoSize, DefaultGizmoSize)),
      Sanitize(s.pixelsPerPoint, DefaultPixelsPerPoint))
  }

  /** Every scalar of a derived configuration is non-negative, and every
      snapping increment that was not finite is the engine's positive
      default. */
  lemma ConfigScalarsSanitised(s: Settings, size: Size)
    ensures var c := ConfigOf(s, size);
      && c.snapAngle >= 0.0 && c.snapDistance >= 0.0 && c.snapScale >= 0.0
      && c.pixelsPerPoint >= 0.0
      && c.visuals.inactiveAlpha >= 0.0 && c.visuals.highlightAlpha >= 0.0
      && c.visuals.strokeWidth >= 0.0 && c.visuals.gizmoSize >= 0.0
      && (s.snapAngle.NonFinite? ==> c.snapAngle > 0.0)
      && (s.snapDistance.NonFinite? ==> c.snapDistance > 0.0)
      && (s.snapScale.NonFinite? ==> c.snapScale > 0.0)
  {
  }

  /** The initial settings give the initial values back unchanged, with
      every mode enabled and no override. */
  lemma InitialConfig(size: Size)
    ensures var c := ConfigOf(InitialSettings, size);
      && c.modes == E.AllModes
      && c.modeOverride == E.None
      && c.orientation == E.Global && c.pivotPoint == E.MedianPoint
      && c.snapAngle == DefaultSnapAngle && c.snapDistance == DefaultSnapDistance
      && c.snapScale == DefaultSnapScale && c.pixelsPerPoint == 1.0
      && c.visuals.inactiveAlpha == 0.7 && c.visuals.highlightAlpha == 1.0
      && c.visuals.strokeWidth == 4.0 && c.visuals.gizmoSize == 75.0
  {
    AllFlagsEnableAllModes();
  }
}
