/** The Rust side of the gizmo item (`ffi::Gizmo` in gizmo.rs): the
    conversions between the engine's transforms and the Qt target list,
    and the cross-frame protocol around the engine: the lazily created
    engine gizmo, the flag recording whether it was updated since the last
    draw, and the last interaction, replayed before a draw that was not
    preceded by an update. */
module GizmoHost {
  import opened Floats
  import opened Vectors
  import opened E = Engine
  import opened Targets
  import opened Configuration
  import PaintNode

  // ---------------------------------------------------------------------
  // Transforms across the boundary
  // ---------------------------------------------------------------------

  /** The three Qt values `update_interaction` makes of an engine transform.
      The rotation is packed as (v.x, v.y, v.z, s). */
  function PositionOut(t: Transform): (p: Vec3)
    ensures p == t.translation
  {
    Vec3(t.translation.x, t.translation.y, t.translation.z)
  }

  function RotationOut(t: Transform): (r: Vec4)
    ensures Quat(Vec3(r.x, r.y, r.z), r.w) == t.rotation
  {
    Vec4(t.rotation.v.x, t.rotation.v.y, t.rotation.v.z, t.rotation.s)
  }

  function ScaleOut(t: Transform): (s: Vec3)
    ensures s == t.scale
  {
    Vec3(t.scale.x, t.scale.y, t.scale.z)
  }

  /** The engine transform `update_interaction_impl` makes of a target's
      three Qt values; the rotation is read with `Quat::from_xyzw`. */
  function TransformIn(position: Vec3, rotation: Vec4, scale: Vec3): (t: Transform)
    ensures PositionOut(t) == position && RotationOut(t) == rotation && ScaleOut(t) == scale
  {
    Transform(position, Quat(Vec3(rotation.x, rotation.y, rotation.z), rotation.w), scale)
  }

  /** The two conversions use the same quaternion component order, so an
      engine transform survives the trip through Qt values (the Qt values
      survive the other trip, as `TransformIn` states). */
  lemma TransformRoundTrip(t: Transform)
    ensures TransformIn(PositionOut(t), RotationOut(t), ScaleOut(t)) == t
  {
  }

  /** `multiunzip` of the converted transforms. */
  function PositionsOut(ts: seq<Transform>): (ps: seq<Vec3>)
    ensures |ps| == |ts|
    ensures forall i :: 0 <= i < |ts| ==> ps[i] == PositionOut(ts[i])
  {
    seq(|ts|, i requires 0 <= i < |ts| => PositionOut(ts[i]))
  }

  function RotationsOut(ts: seq<Transform>): (rs: seq<Vec4>)
    ensures |rs| == |ts|
    ensures forall i :: 0 <= i < |ts| ==> rs[i] == RotationOut(ts[i])
  {
    seq(|ts|, i requires 0 <= i < |ts| => RotationOut(ts[i]))
  }

  function ScalesOut(ts: seq<Transform>): (ss: seq<Vec3>)
    ensures |ss| == |ts|
    ensures forall i :: 0 <= i < |ts| ==> ss[i] == ScaleOut(ts[i])
  {
    seq(|ts|, i requires 0 <= i < |ts| => ScaleOut(ts[i]))
  }

  /** The target list `update_interaction` stores for the engine's
      transforms. */
  function PackTransforms(ts: seq<Transform>): (targets: seq<TargetEntry>)
    ensures |targets| == |ts|
    ensures forall i :: 0 <= i < |ts| ==> targets[i] == Entry(PositionOut(ts[i]), RotationOut(ts[i]), ScaleOut(ts[i]))
  {
    Packed(PositionsOut(ts), RotationsOut(ts), ScalesOut(ts))
  }

  /** `multizip` of the three extracted slices into engine transforms. */
  function TransformsIn(ps: seq<Vec3>, rs: seq<Vec4>, ss: seq<Vec3>): (ts: seq<Transform>)
    requires |ps| == |rs| == |ss|
    ensures |ts| == |ps|
  {
    seq(|ps|, i requires 0 <= i < |ps| => TransformIn(ps[i], rs[i], ss[i]))
  }

  /** The transforms the engine is handed for a target list. */
  function EngineTransforms(targets: seq<TargetEntry>): (ts: seq<Transform>)
    ensures |ts| == TargetCount(targets)
  {
    TransformsIn(Positions(targets), Rotations(targets), Scales(targets))
  }

  /** The transforms the engine returns are stored so that the next update
      hands it exactly those transforms again, in the same order. */
  lemma {:induction false} EngineTransformsOfPacked(ts: seq<Transform>)
    ensures TargetCount(PackTransforms(ts)) == |ts|
    ensures EngineTransforms(PackTransforms(ts)) == ts
  {
    PackedRoundTrip(PositionsOut(ts), RotationsOut(ts), ScalesOut(ts));
    forall i | 0 <= i < |ts| ensures EngineTransforms(PackTransforms(ts))[i] == ts[i] {
      TransformRoundTrip(ts[i]);
    }
  }

  // ---------------------------------------------------------------------
  // The engine calls, as a log
  // ---------------------------------------------------------------------

  /** One call the host makes on the engine gizmo. */
  datatype EngineCall =
    | Created(config: GizmoConfig)
    | ConfigUpdated(config: GizmoConfig)
    | Updated(interaction: Interaction, transforms: seq<Transform>)
    | PickPreviewed(cursor: Point)
    | Drew

  /** The calls made so far, the latest last. */
  datatype Log = NoCalls | Then(earlier: Log, last: EngineCall)

  /** The calls of a log in order. */
  function Calls(log: Log): (calls: seq<EngineCall>)
    ensures log.Then? ==> |calls| > 0 && calls[|calls| - 1] == log.last
  {
    match log
    case NoCalls => []
    case Then(earlier, c) => Calls(earlier) + [c]
  }

  /** Whether the last `update` of a log comes after its last `draw`. */
  predicate UpdatePending(log: Log) {
    match log
    case NoCalls => false
    case Then(earlier, c) => c.Updated? || (!c.Drew? && UpdatePending(earlier))
  }

  /** The engine's requirement: every `draw` comes after an `update` made
      since the `draw` before it. */
  predicate DrawsFollowUpdates(log: Log) {
    match log
    case NoCalls => true
    case Then(earlier, c) => DrawsFollowUpdates(earlier) && (c.Drew? ==> UpdatePending(earlier))
  }

  /** Among the first `n` calls there is an update followed by no draw. */
  ghost predicate PendingAt(calls: seq<EngineCall>, n: int)
    requires 0 <= n <= |calls|
  {
    exists j :: 0 <= j < n && calls[j].Updated? && forall k :: j < k < n ==> !calls[k].Drew?
  }

  /** Whether an update is pending among the first `n` calls depends on
      those calls only. */
  lemma PendingAtPrefix(calls: seq<EngineCall>, more: seq<EngineCall>, n: int)
    requires 0 <= n <= |calls|
    ensures PendingAt(calls + more, n) == PendingAt(calls, n)
  {
    if PendingAt(calls + more, n) {
      var j :| 0 <= j < n && (calls + more)[j].Updated? && forall k :: j < k < n ==> !(calls + more)[k].Drew?;
      forall k | j < k < n ensures !calls[k].Drew? {
        assert (calls + more)[k] == calls[k];
      }
      assert (calls + more)[j] == calls[j];
    }
    if PendingAt(calls, n) {
      var j :| 0 <= j < n && calls[j].Updated? && forall k :: j < k < n ==> !calls[k].Drew?;
      assert (calls + more)[j].Updated? && forall k :: j < k < n ==> !(calls + more)[k].Drew?;
    }
  }

  /** `UpdatePending` states what it means: some update in the log is
      followed by no draw. */
  lemma {:induction false} UpdatePendingMeans(log: Log)
    ensures UpdatePending(log) <==> PendingAt(Calls(log), |Calls(log)|)
  {
    match log
    case NoCalls =>
    case Then(earlier, c) =>
      UpdatePendingMeans(earlier);
      var before := Calls(earlier);
      var calls := Calls(log);
      var n := |before|;
      assert calls == before + [c];
      PendingAtPrefix(before, [c], n);
      if c.Updated? {
        assert calls[n].Updated?;
      } else if c.Drew? {
        assert calls[n].Drew?;
        assert !PendingAt(calls, n + 1);
      } else {
        if PendingAt(calls, n + 1) {
          var j :| 0 <= j < n + 1 && calls[j].Updated? && forall k :: j < k < n + 1 ==> !calls[k].Drew?;
          assert j < n;
          assert PendingAt(calls, n);
        }
        if PendingAt(calls, n) {
          var j :| 0 <= j < n && calls[j].Updated? && forall k :: j < k < n ==> !calls[k].Drew?;
          assert forall k :: j < k < n + 1 ==> !calls[k].Drew?;
        }
      }
  }

  /** `DrawsFollowUpdates` states what it means: before every draw there
      is an update with no draw between the two. */
  lemma {:induction false} DrawsFollowUpdatesMeans(log: Log)
    ensures DrawsFollowUpdates(log) <==>
      forall i :: 0 <= i < |Calls(log)| && Calls(log)[i].Drew? ==> PendingAt(Calls(log), i)
  {
    match log
    case NoCalls =>
    case Then(earlier, c) =>
      DrawsFollowUpdatesMeans(earlier);
      UpdatePendingMeans(earlier);
      var before := Calls(earlier);
      var calls := Calls(log);
      var n := |before|;
      assert calls == before + [c];
      forall i | 0 <= i <= n ensures PendingAt(calls, i) == PendingAt(before, i) {
        PendingAtPrefix(before, [c], i);
      }
      if DrawsFollowUpdates(log) {
        forall i | 0 <= i < |calls| && calls[i].Drew? ensures PendingAt(calls, i) {
          if i < n {
            assert before[i].Drew?;
          }
        }
      }
      if forall i :: 0 <= i < |calls| && calls[i].Drew? ==> PendingAt(calls, i) {
        forall i | 0 <= i < n && before[i].Drew? ensures PendingAt(before, i) {
          assert calls[i].Drew?;
        }
        if c.Drew? {
          assert calls[n].Drew?;
        }
      }
  }

  // ---------------------------------------------------------------------
  // The host object
  // ---------------------------------------------------------------------

  /** The engine gizmo `with_gizmo` works on: the stored one with the
      current configuration applied, or a new one made from it. */
  function Prepare<G>(engine: Engine<G>, stored: Option<G>, config: GizmoConfig): G {
    match stored
    case Some(g) => engine.updateConfig(g, config)
    case None => engine.create(config)
  }

  /** The call `Prepare` makes. */
  function PrepareCall<G>(stored: Option<G>, config: GizmoConfig): EngineCall {
    if stored.Some? then ConfigUpdated(config) else Created(config)
  }

  /** The interaction `update_paint_node` replays: the last one, or the
      default one before any. */
  function Replayed(last: Option<Interaction>): (i: Interaction)
    requires last.Some? ==> !last.value.dragStarted
    ensures !i.dragStarted
    ensures last.None? ==> i == DefaultInteraction
  {
    if last.Some? then last.value else DefaultInteraction
  }

  /** The three closures the host passes to `with_gizmo`. */
  datatype Task =
    | UpdateTask(interaction: Interaction, transforms: seq<Transform>)
    | PickPreviewTask(cursor: Point)
    | DrawTask

  /** What each of them returns. */
  datatype Outcome =
    | UpdateOutcome(result: Option<seq<Transform>>)
    | PickOutcome(hit: bool)
    | DrawOutcome(data: ValidDrawData)

  /** The host object. `settings`, `size`, `visible` and `targets` are
      item properties that the QML side may assign at any time; the
      engine gizmo, the update flag and the last interaction are private
      to the protocol. `log` records the engine calls made so far. */
  class Gizmo<G> {
    const engine: Engine<G>
    var settings: Settings
    var size: Size
    var visible: bool
    var targets: seq<TargetEntry>
    var gizmo: Option<G>
    var updatedSinceLastDraw: bool
    var lastInteraction: Option<Interaction>
    ghost var log: Log

    /** The protocol's invariant: the stored interaction never starts a
        drag, every draw so far followed an update, and the flag is set
        only while an update is pending. */
    ghost predicate Valid()
      reads this
    {
      && (lastInteraction.Some? ==> !lastInteraction.value.dragStarted)
      && DrawsFollowUpdates(log)
      && (updatedSinceLastDraw ==> UpdatePending(log))
    }

    /** The item as `initialize` leaves it, with no target and no engine
        gizmo yet. */
    constructor (engine: Engine<G>, size: Size, visible: bool)
      ensures Valid()
      ensures this.engine == engine && this.size == size && this.visible == visible
      ensures settings == InitialSettings && targets == []
      ensures gizmo == None && !updatedSinceLastDraw && lastInteraction == None
      ensures log == NoCalls
    {
      this.engine := engine;
      this.size := size;
      this.visible := visible;
      settings := InitialSettings;
      targets := [];
      gizmo := None;
      updatedSinceLastDraw := false;
      lastInteraction := None;
      log := NoCalls;
    }

    /** `gizmo_config`: the mode set built by successive inserts and the
        sanitised scalars, which is the specified configuration. */
    method GizmoConfig() returns (config: E.GizmoConfig)
      ensures config == ConfigOf(settings, size)
    {
      var modes := BuildModes(settings.flags);
      GroupsFollowFlagsDetermines(settings.flags, modes);
      var s := settings;
      config := E.GizmoConfig(
        Rect(Point(0.0, 0.0), Point(size.width, size.height)),
        modes,
        ModeOverrideFromQt(s.modeOverride),
        OrientationFromQt(s.orientation),
        PivotPointFromQt(s.pivotPoint),
        s.snapping,
        Sanitize(s.snapAngle, DefaultSnapAngle),
        Sanitize(s.snapDistance, DefaultSnapDistance),
        Sanitize(s.snapScale, DefaultSnapScale),
        Visuals(
          s.xColor, s.yColor, s.zColor, s.sColor,
          Sanitize(s.inactiveAlpha, DefaultInactiveAlpha),
          Sanitize(s.highlightAlpha, DefaultHighlightAlpha),
          Sanitize(s.strokeWidth, DefaultStrokeWidth),
          Sanitize(s.gizmoSize, DefaultGizmoSize)),
        Sanitize(s.pixelsPerPoint, DefaultPixelsPerPoint));
    }

    /** `with_gizmo`: takes the stored engine gizmo (or creates one) with
        the current configuration, runs the task on it and stores it back,
        so that afterwards there always is one. The update task also sets
        the update flag; the draw task draws only when there are targets
        and the item is visible. */
    method WithGizmo(task: Task) returns (outcome: Outcome)
      modifies this
      ensures settings == old(settings) && size == old(size) && visible == old(visible)
      ensures targets == old(targets) && lastInteraction == old(lastInteraction)
      ensures var config := ConfigOf(settings, size);
        var g := Prepare(engine, old(gizmo), config);
        var prepared := Then(old(log), PrepareCall(old(gizmo), config));
        match task
        case UpdateTask(i, ts) =>
          && gizmo == Some(engine.update(g, i, ts).0)
          && outcome == UpdateOutcome(engine.update(g, i, ts).1)
          && updatedSinceLastDraw
          && log == Then(prepared, Updated(i, ts))
        case PickPreviewTask(p) =>
          && gizmo == Some(g)
          && outcome == PickOutcome(engine.pickPreview(g, p))
          && updatedSinceLastDraw == old(updatedSinceLastDraw)
          && log == Then(prepared, PickPreviewed(p))
        case DrawTask =>
          && gizmo == Some(g)
          && outcome == DrawOutcome(if |targets| > 0 && visible then engine.draw(g) else EmptyDrawData)
          && updatedSinceLastDraw == old(updatedSinceLastDraw)
          && log == if |targets| > 0 && visible then Then(prepared, Drew) else prepared
    {
      var config := GizmoConfig();
      var g := if gizmo.Some? then engine.updateConfig(gizmo.value, config) else engine.create(config);
      ghost var calls := Then(log, PrepareCall(gizmo, config));
      match task {
        case UpdateTask(interaction, transforms) =>
          updatedSinceLastDraw := true;
          var (next, result) := engine.update(g, interaction, transforms);
          calls := Then(calls, Updated(interaction, transforms));
          g := next;
          outcome := UpdateOutcome(result);
        case PickPreviewTask(cursor) =>
          var hit := engine.pickPreview(g, cursor);
          calls := Then(calls, PickPreviewed(cursor));
          outcome := PickOutcome(hit);
        case DrawTask =>
          var targetCount := TargetCount(targets);
          var data: ValidDrawData;
          if targetCount > 0 && visible {
            data := engine.draw(g);
            calls := Then(calls, Drew);
          } else {
            data := EmptyDrawData;
          }
          outcome := DrawOutcome(data);
      }
      gizmo := Some(g);
      log := calls;
    }

    /** `update_interaction_impl`: reads the targets into freshly made
        slices of the target count, turns them into engine transforms and
        updates the engine with the interaction. */
    method UpdateInteractionImpl(interaction: Interaction) returns (result: Option<seq<Transform>>)
      modifies this
      ensures settings == old(settings) && size == old(size) && visible == old(visible)
      ensures targets == old(targets) && lastInteraction == old(lastInteraction)
      ensures updatedSinceLastDraw
      ensures var config := ConfigOf(settings, size);
        var u := engine.update(Prepare(engine, old(gizmo), config), interaction, EngineTransforms(targets));
        && gizmo == Some(u.0)
        && result == u.1
        && log == Then(Then(old(log), PrepareCall(old(gizmo), config)), Updated(interaction, EngineTransforms(targets)))
    {
      var targetCount := TargetCount(targets);
      var positions := new Vec3[targetCount](_ => Zero3);
      var rotations := new Vec4[targetCount](_ => Zero4);
      var scales := new Vec3[targetCount](_ => Zero3);
      ExtractTargets(targets, positions, rotations, scales);
      assert positions.Length == rotations.Length;
      assert positions.Length == scales.Length;
      var transforms := TransformsIn(positions[..], rotations[..], scales[..]);
      var outcome := WithGizmo(UpdateTask(interaction, transforms));
      result := outcome.result;
    }

    /** `update_interaction`: updates the engine with the interaction;
        when the engine changed the targets, stores them (and returns them,
        as the `transform_updated` signal carries them); in every case
        keeps the interaction, with `drag_started` cleared, for replay. */
    method UpdateInteraction(cursor: Point, hovered: bool, dragStarted: bool, dragging: bool)
      returns (emitted: Option<seq<TargetEntry>>)
      requires Valid()
      modifies this
      ensures Valid()
      ensures settings == old(settings) && size == old(size) && visible == old(visible)
      ensures lastInteraction == Some(Interaction(cursor, hovered, false, dragging))
      ensures updatedSinceLastDraw
      ensures var config := ConfigOf(settings, size);
        var interaction := Interaction(cursor, hovered, dragStarted, dragging);
        var u := engine.update(Prepare(engine, old(gizmo), config), interaction, EngineTransforms(old(targets)));
        && gizmo == Some(u.0)
        && log == Then(Then(old(log), PrepareCall(old(gizmo), config)), Updated(interaction, EngineTransforms(old(targets))))
        && (u.1.None? ==> targets == old(targets) && emitted == None)
        && (u.1.Some? ==> targets == PackTransforms(u.1.value) && emitted == Some(targets))
        && (u.1.Some? ==> EngineTransforms(targets) == u.1.value)
    {
      var interaction := Interaction(cursor, hovered, dragStarted, dragging);
      var result := UpdateInteractionImpl(interaction);
      emitted := None;
      if result.Some? {
        var transforms := result.value;
        var packed := TransformsToVariant(PositionsOut(transforms), RotationsOut(transforms), ScalesOut(transforms));
        targets := packed;
        emitted := Some(packed);
        EngineTransformsOfPacked(transforms);
      }
      lastInteraction := Some(interaction.(dragStarted := false));
    }

    /** `pick_preview`: asks the engine, with the current configuration,
        whether the cursor is over the gizmo. */
    method PickPreview(cursor: Point) returns (hit: bool)
      requires Valid()
      modifies this
      ensures Valid()
      ensures settings == old(settings) && size == old(size) && visible == old(visible)
      ensures targets == old(targets) && lastInteraction == old(lastInteraction)
      ensures updatedSinceLastDraw == old(updatedSinceLastDraw)
      ensures var config := ConfigOf(settings, size);
        var g := Prepare(engine, old(gizmo), config);
        && gizmo == Some(g)
        && hit == engine.pickPreview(g, cursor)
        && log == Then(Then(old(log), PrepareCall(old(gizmo), config)), PickPreviewed(cursor))
    {
      var outcome := WithGizmo(PickPreviewTask(cursor));
      hit := outcome.hit;
    }

    /** The first half of `update_paint_node`: when the engine was not
        updated since the last draw, replays the last interaction (which
        never starts a drag), so that an update is pending afterwards. */
    method ReplayIfStale()
      requires Valid()
      modifies this
      ensures Valid() && updatedSinceLastDraw && UpdatePending(log)
      ensures settings == old(settings) && size == old(size) && visible == old(visible)
      ensures targets == old(targets) && lastInteraction == old(lastInteraction)
      ensures var config := ConfigOf(settings, size);
        var replay := Replayed(old(lastInteraction));
        && gizmo == (if old(updatedSinceLastDraw) then old(gizmo)
                     else Some(engine.update(Prepare(engine, old(gizmo), config), replay, EngineTransforms(targets)).0))
        && log == (if old(updatedSinceLastDraw) then old(log)
                   else Then(Then(old(log), PrepareCall(old(gizmo), config)), Updated(replay, EngineTransforms(targets))))
    {
      if !updatedSinceLastDraw {
        var interaction := if lastInteraction.Some? then lastInteraction.value else DefaultInteraction;
        assert !interaction.dragStarted;
        var _ := UpdateInteractionImpl(interaction);
      }
    }

    /** `update_paint_node`: makes sure an update is pending, clears the
        flag, draws when there are targets and the item is visible, and
        copies the draw data into the node. */
    method UpdatePaintNode(oldNode: PaintNode.GeometryNode?) returns (node: PaintNode.GeometryNode?)
      requires Valid()
      modifies this, oldNode
      ensures Valid()
      ensures settings == old(settings) && size == old(size) && visible == old(visible)
      ensures targets == old(targets) && lastInteraction == old(lastInteraction)
      ensures !updatedSinceLastDraw
      ensures var config := ConfigOf(settings, size);
        var replay := Updated(Replayed(old(lastInteraction)), EngineTransforms(targets));
        var stored :=
          if old(updatedSinceLastDraw) then old(gizmo)
          else Some(engine.update(Prepare(engine, old(gizmo), config), replay.interaction, replay.transforms).0);
        var replayed :=
          if old(updatedSinceLastDraw) then old(log) else Then(Then(old(log), PrepareCall(old(gizmo), config)), replay);
        var prepared := Then(replayed, PrepareCall(stored, config));
        && gizmo == Some(Prepare(engine, stored, config))
        && log == if |targets| > 0 && visible then Then(prepared, Drew) else prepared
      ensures var d := if |targets| > 0 && visible then engine.draw(gizmo.value) else EmptyDrawData;
        && (node == null <==> |d.vertices| == 0)
        && (node != null ==> PaintNode.Holds(node, d.vertices, d.colors, d.indices))
      ensures node != null ==> fresh(node.vertexData) && fresh(node.indexData)
      ensures node != null && oldNode != null ==> node == oldNode
      ensures node != null && oldNode == null ==> fresh(node)
    {
      ReplayIfStale();
      updatedSinceLastDraw := false;
      var outcome := WithGizmo(DrawTask);
      var data := outcome.data;
      if |data.indices| > 0 {
        assert data.indices[0] < |data.vertices|;
      }
      node := PaintNode.GizmoUpdatePaintNode(oldNode, data.vertices, data.colors, data.indices);
    }
  }
}
