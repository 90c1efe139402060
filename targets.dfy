/** The target list the QML side hands to the gizmo, and the three C++
    helpers of gizmo.cpp that read it and build it.

    A QVariant list of string-keyed maps is a `seq<TargetEntry>`. A QVariant
    that is not a list reads as the empty list and a list element that is
    not a map reads as the empty map, so both are covered by these values. */
module Targets {
  import opened Vectors

  /** A value stored in a target map. */
  datatype Value = Vec3Value(v3: Vec3) | Vec4Value(v4: Vec4)

  type TargetEntry = map<string, Value>

  /** `qvariant_cast<QVector3D>`: a stored QVector3D is read back as it is;
      another kind of value reads as the default-constructed vector. */
  function AsVec3(v: Value): Vec3 {
    if v.Vec3Value? then v.v3 else Zero3
  }

  /** `qvariant_cast<QVector4D>`, likewise. */
  function AsVec4(v: Value): Vec4 {
    if v.Vec4Value? then v.v4 else Zero4
  }

  /** `QMap::value(key, default)` */
  function Lookup(e: TargetEntry, key: string, default: Value): Value {
    if key in e then e[key] else default
  }

  /** The three fields of one target, with the defaults the reader uses
      for missing keys: no translation, the identity rotation, unit scale. */
  function PositionOf(e: TargetEntry): (p: Vec3)
    ensures "position" !in e ==> p == Zero3
    ensures "position" in e && e["position"].Vec3Value? ==> p == e["position"].v3
    ensures "position" in e && !e["position"].Vec3Value? ==> p == Zero3
  {
    AsVec3(Lookup(e, "position", Vec3Value(Zero3)))
  }

  function RotationOf(e: TargetEntry): (r: Vec4)
    ensures "rotation" !in e ==> r == IdentityRotation
    ensures "rotation" in e && e["rotation"].Vec4Value? ==> r == e["rotation"].v4
    ensures "rotation" in e && !e["rotation"].Vec4Value? ==> r == Zero4
  {
    AsVec4(Lookup(e, "rotation", Vec4Value(IdentityRotation)))
  }

  function ScaleOf(e: TargetEntry): (s: Vec3)
    ensures "scale" !in e ==> s == One3
    ensures "scale" in e && e["scale"].Vec3Value? ==> s == e["scale"].v3
    ensures "scale" in e && !e["scale"].Vec3Value? ==> s == Zero3
  {
    AsVec3(Lookup(e, "scale", Vec3Value(One3)))
  }

  /** A target with none of the three keys is the identity transform. */
  lemma EmptyEntryIsIdentity()
    ensures PositionOf(map[]) == Zero3
    ensures RotationOf(map[]) == IdentityRotation
    ensures ScaleOf(map[]) == One3
  {
  }

  function Positions(targets: seq<TargetEntry>): (ps: seq<Vec3>)
    ensures |ps| == |targets|
    ensures forall i :: 0 <= i < |targets| ==> ps[i] == PositionOf(targets[i])
  {
    seq(|targets|, i requires 0 <= i < |targets| => PositionOf(targets[i]))
  }

  function Rotations(targets: seq<TargetEntry>): (rs: seq<Vec4>)
    ensures |rs| == |targets|
    ensures forall i :: 0 <= i < |targets| ==> rs[i] == RotationOf(targets[i])
  {
    seq(|targets|, i requires 0 <= i < |targets| => RotationOf(targets[i]))
  }

  function Scales(targets: seq<TargetEntry>): (ss: seq<Vec3>)
    ensures |ss| == |targets|
    ensures forall i :: 0 <= i < |targets| ==> ss[i] == ScaleOf(targets[i])
  {
    seq(|targets|, i requires 0 <= i < |targets| => ScaleOf(targets[i]))
  }

  /** `extract_target_count_from_qvariant` */
  function TargetCount(targets: seq<TargetEntry>): (n: nat)
    ensures n == |Positions(targets)| == |Rotations(targets)| == |Scales(targets)|
  {
    |targets|
  }

  /** `extract_targets_from_qvariant`: fills the three caller-provided
      slices, which must have the list's length, entry by entry. */
  method ExtractTargets(targets: seq<TargetEntry>, positions: array<Vec3>, rotations: array<Vec4>, scales: array<Vec3>)
    requires positions.Length == |targets|
    requires rotations.Length == |targets|
    requires scales.Length == |targets|
    requires positions != scales
    modifies positions, rotations, scales
    ensures positions[..] == Positions(targets)
    ensures rotations[..] == Rotations(targets)
    ensures scales[..] == Scales(targets)
  {
    var i := 0;
    while i < |targets|
      invariant 0 <= i <= |targets|
      invariant forall k :: 0 <= k < i ==> positions[k] == PositionOf(targets[k])
      invariant forall k :: 0 <= k < i ==> rotations[k] == RotationOf(targets[k])
      invariant forall k :: 0 <= k < i ==> scales[k] == ScaleOf(targets[k])
    {
      var target := targets[i];
      positions[i] := AsVec3(Lookup(target, "position", Vec3Value(Zero3)));
      rotations[i] := AsVec4(Lookup(target, "rotation", Vec4Value(IdentityRotation)));
      scales[i] := AsVec3(Lookup(target, "scale", Vec3Value(One3)));
      i := i + 1;
    }
  }

  /** The map `transforms_to_qvariant` builds for one target. */
  function Entry(position: Vec3, rotation: Vec4, scale: Vec3): TargetEntry {
    map["position" := Vec3Value(position), "rotation" := Vec4Value(rotation), "scale" := Vec3Value(scale)]
  }

  /** `transforms_to_qvariant`: one map per target, in order (the list
      `Packed` describes). */
  method TransformsToVariant(positions: seq<Vec3>, rotations: seq<Vec4>, scales: seq<Vec3>)
    returns (transforms: seq<TargetEntry>)
    requires |positions| == |rotations| == |scales|
    ensures transforms == Packed(positions, rotations, scales)
  {
    transforms := [];
    var i := 0;
    while i < |positions|
      invariant 0 <= i <= |positions|
      invariant |transforms| == i
      invariant forall k :: 0 <= k < i ==> transforms[k] == Entry(positions[k], rotations[k], scales[k])
    {
      var transform: TargetEntry := map[];
      transform := transform["position" := Vec3Value(positions[i])];
      transform := transform["rotation" := Vec4Value(rotations[i])];
      transform := transform["scale" := Vec3Value(scales[i])];
      transforms := transforms + [transform];
      i := i + 1;
    }
  }

  /** The list `transforms_to_qvariant` builds, as a specification. */
  function Packed(positions: seq<Vec3>, rotations: seq<Vec4>, scales: seq<Vec3>): seq<TargetEntry>
    requires |positions| == |rotations| == |scales|
  {
    seq(|positions|, i requires 0 <= i < |positions| => Entry(positions[i], rotations[i], scales[i]))
  }

  /** The packed list has one entry per target, and entry i maps exactly
      the three keys to the i-th inputs. */
  lemma PackedEntries(positions: seq<Vec3>, rotations: seq<Vec4>, scales: seq<Vec3>)
    requires |positions| == |rotations| == |scales|
    ensures |Packed(positions, rotations, scales)| == |positions|
    ensures forall i :: 0 <= i < |positions| ==>
      && Packed(positions, rotations, scales)[i].Keys == {"position", "rotation", "scale"}
      && Packed(positions, rotations, scales)[i]["position"] == Vec3Value(positions[i])
      && Packed(positions, rotations, scales)[i]["rotation"] == Vec4Value(rotations[i])
      && Packed(positions, rotations, scales)[i]["scale"] == Vec3Value(scales[i])
  {
  }

  /** Reading back a packed list gives its count and the three input lists
      unchanged. */
  lemma {:induction false} PackedRoundTrip(positions: seq<Vec3>, rotations: seq<Vec4>, scales: seq<Vec3>)
    requires |positions| == |rotations| == |scales|
    ensures TargetCount(Packed(positions, rotations, scales)) == |positions|
    ensures Positions(Packed(positions, rotations, scales)) == positions
    ensures Rotations(Packed(positions, rotations, scales)) == rotations
    ensures Scales(Packed(positions, rotations, scales)) == scales
  {
    var packed := Packed(positions, rotations, scales);
    forall i | 0 <= i < |packed|
      ensures PositionOf(packed[i]) == positions[i]
      ensures RotationOf(packed[i]) == rotations[i]
      ensures ScaleOf(packed[i]) == scales[i]
    {
      assert packed[i] == Entry(positions[i], rotations[i], scales[i]);
    }
  }

  /** Packing what was read back from a list of well-formed maps gives the
      list again: keys other than the three, or values of the wrong kind,
      are the only things the read-back loses. */
  lemma {:induction false} ReadBackRoundTrip(targets: seq<TargetEntry>)
    requires forall i :: 0 <= i < |targets| ==>
      && targets[i].Keys == {"position", "rotation", "scale"}
      && targets[i]["position"].Vec3Value?
      && targets[i]["rotation"].Vec4Value?
      && targets[i]["scale"].Vec3Value?
    ensures Packed(Positions(targets), Rotations(targets), Scales(targets)) == targets
  {
    var packed := Packed(Positions(targets), Rotations(targets), Scales(targets));
    forall i | 0 <= i < |targets| ensures packed[i] == targets[i] {
      var e := targets[i];
      assert packed[i] == Entry(PositionOf(e), RotationOf(e), ScaleOf(e));
      assert packed[i].Keys == e.Keys;
    }
  }
}
