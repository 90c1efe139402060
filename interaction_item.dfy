/** `GizmoInteractionItem` of gizmo.h: the Qt item that turns hover and
    mouse events into calls of the virtual `updateInteraction`, gated by the
    virtual `pickPreview`.

    The answer `pickPreview` gives at the event's position is a parameter
    (`picked`) of each handler that asks for it; the calls made to
    `updateInteraction` are recorded, oldest first. Accepting or ignoring the
    Qt event is the handler's boolean result. */
module InteractionItem {
  import opened Vectors

  /** One call `updateInteraction(position, hovered, dragStarted, dragging)`. */
  datatype Call = Call(position: Point, hovered: bool, dragStarted: bool, dragging: bool)

  /** The two private flags `_hovering` and `_dragging`. */
  datatype ItemState = ItemState(hovering: bool, dragging: bool)

  const Initial: ItemState := ItemState(false, false)

  datatype Event =
    | HoverEnter(pos: Point)
    | HoverLeave(pos: Point)
    | HoverMove(pos: Point)
    | MousePress(pos: Point)
    | MouseRelease(pos: Point)
    | MouseMove(pos: Point)

  /** What a handler does: the flags afterwards, whether the Qt event was
      accepted, and the calls it made. */
  datatype Reaction = Reaction(next: ItemState, accepted: bool, calls: seq<Call>)

  /** `callUpdateInteraction` made in state `s`: `hovered` is
      `_hovering || _dragging` and `dragging` is `_dragging`, both read at
      the time of the call. */
  function CallIn(s: ItemState, pos: Point, dragStarted: bool): Call {
    Call(pos, s.hovering || s.dragging, dragStarted, s.dragging)
  }

  /** The handlers' assertions: a hover enter while hovering and a press
      while dragging are not allowed. */
  predicate Enabled(s: ItemState, e: Event) {
    match e
    case HoverEnter(_) => !s.hovering
    case MousePress(_) => !s.dragging
    case _ => true
  }

  /** `hoverMoveEvent` as the source writes it: `_dragging` is cleared first,
      but a call is made only when the pick succeeds or the item was
      hovering. */
  function HoverMoveAsWritten(s: ItemState, pos: Point, picked: bool): (r: Reaction)
    ensures !r.next.dragging && r.next.hovering == picked
    ensures r.calls != [] <==> (picked || s.hovering)
    ensures r.accepted <==> r.calls != []
    ensures r.calls != [] ==> r.calls == [Call(pos, picked, false, false)]
  {
    var cleared := s.(dragging := false);
    if picked then
      var next := cleared.(hovering := true);
      Reaction(next, true, [CallIn(next, pos, false)])
    else if s.hovering then
      var next := cleared.(hovering := false);
      Reaction(next, true, [CallIn(next, pos, false)])
    else
      Reaction(cleared, false, [])
  }

  /** `hoverMoveEvent` corrected: clearing `_dragging` is reported to the
      engine too, so a drag that ends without a release is not left running
      there. */
  function HoverMoveNotifying(s: ItemState, pos: Point, picked: bool): (r: Reaction)
    ensures !r.next.dragging && r.next.hovering == picked
    ensures r.calls != [] <==> (picked || s.hovering || s.dragging)
    ensures r.accepted <==> r.calls != []
    ensures r.calls != [] ==> r.calls == [Call(pos, picked, false, false)]
  {
    var cleared := s.(dragging := false);
    if picked then
      var next := cleared.(hovering := true);
      Reaction(next, true, [CallIn(next, pos, false)])
    else if s.hovering || s.dragging then
      var next := cleared.(hovering := false);
      Reaction(next, true, [CallIn(next, pos, false)])
    else
      Reaction(cleared, false, [])
  }

  /** One event handler. Hover moves take the corrected form. */
  function Step(s: ItemState, e: Event, picked: bool): (r: Reaction)
    requires Enabled(s, e)
    ensures |r.calls| <= 1
    ensures forall c :: c in r.calls ==> c == CallIn(r.next, c.position, c.dragStarted)
    ensures r.calls != [] <==> r.accepted
    ensures !r.accepted ==> r.next == s
  {
    match e
    case HoverEnter(pos) =>
      if picked then
        var next := s.(hovering := true);
        Reaction(next, true, [CallIn(next, pos, false)])
      else
        Reaction(s, false, [])
    case HoverLeave(pos) =>
      if s.hovering then
        var next := s.(hovering := false);
        Reaction(next, true, [CallIn(next, pos, false)])
      else
        Reaction(s, false, [])
    case HoverMove(pos) =>
      HoverMoveNotifying(s, pos, picked)
    case MousePress(pos) =>
      if picked then
        var next := s.(dragging := true);
        Reaction(next, true, [CallIn(next, pos, true)])
      else
        Reaction(s, false, [])
    case MouseRelease(pos) =>
      if !s.dragging then
        Reaction(s, false, [])
      else
        var next := s.(dragging := false);
        Reaction(next, true, [CallIn(next, pos, false)])
    case MouseMove(pos) =>
      if !s.dragging then
        Reaction(s, false, [])
      else
        Reaction(s, true, [CallIn(s, pos, false)])
  }

  // ---------------------------------------------------------------------
  // Properties of single handlers
  // ---------------------------------------------------------------------

  /** A call never reports a drag without reporting a hover, and a drag
      start is always a hovered drag. */
  ghost predicate WellFormedCall(c: Call) {
    && (c.dragging ==> c.hovered)
    && (c.dragStarted ==> c.dragging && c.hovered)
  }

  lemma StepCallsWellFormed(s: ItemState, e: Event, picked: bool)
    requires Enabled(s, e)
    ensures forall c :: c in Step(s, e, picked).calls ==> WellFormedCall(c)
  {
  }

  /** `dragStarted` is set only by an accepted press, which also reports a
      hovered drag; a press is accepted exactly when the pick succeeds and
      a rejected press changes nothing. */
  lemma DragStartOnlyFromPress(s: ItemState, e: Event, picked: bool)
    requires Enabled(s, e)
    ensures (exists c :: c in Step(s, e, picked).calls && c.dragStarted) <==> (e.MousePress? && picked)
    ensures e.MousePress? ==> Step(s, e, picked).accepted == picked
    ensures e.MousePress? && picked ==>
      Step(s, e, picked) == Reaction(ItemState(s.hovering, true), true, [Call(e.pos, true, true, true)])
    ensures e.MousePress? && !picked ==> Step(s, e, picked) == Reaction(s, false, [])
  {
    var r := Step(s, e, picked);
    if e.MousePress? && picked {
      assert r.calls[0] in r.calls;
    }
  }

  /** Release and move are ignored, with no change and no call, unless the
      item is dragging. An accepted release ends the drag with one call; a
      move while dragging keeps the state and reports a hovered drag. */
  lemma MouseReleaseAndMove(s: ItemState, pos: Point, picked: bool)
    ensures !s.dragging ==> Step(s, MouseRelease(pos), picked) == Reaction(s, false, [])
    ensures !s.dragging ==> Step(s, MouseMove(pos), picked) == Reaction(s, false, [])
    ensures s.dragging ==>
      Step(s, MouseRelease(pos), picked) == Reaction(ItemState(s.hovering, false), true, [Call(pos, s.hovering, false, false)])
    ensures s.dragging ==>
      Step(s, MouseMove(pos), picked) == Reaction(s, true, [Call(pos, true, false, true)])
  {
  }

  /** A hover enter hovers and reports it exactly when the pick succeeds;
      a hover leave reports and clears the hover only when there was one. */
  lemma HoverEnterAndLeave(s: ItemState, pos: Point, picked: bool)
    ensures !s.hovering && picked ==>
      Step(s, HoverEnter(pos), picked) == Reaction(ItemState(true, s.dragging), true, [Call(pos, true, false, s.dragging)])
    ensures !s.hovering && !picked ==> Step(s, HoverEnter(pos), picked) == Reaction(s, false, [])
    ensures s.hovering ==>
      Step(s, HoverLeave(pos), picked) == Reaction(ItemState(false, s.dragging), true, [Call(pos, s.dragging, false, s.dragging)])
    ensures !s.hovering ==> Step(s, HoverLeave(pos), picked) == Reaction(s, false, [])
  {
  }

  // ---------------------------------------------------------------------
  // Sequences of events
  // ---------------------------------------------------------------------

  /** An event together with the pick result at its position. */
  datatype Input = Input(event: Event, picked: bool)

  /** Every event of the sequence meets its handler's assertion in turn. */
  predicate Admissible(s: ItemState, inputs: seq<Input>)
    decreases |inputs|
  {
    inputs == [] ||
      (Enabled(s, inputs[0].event) &&
       Admissible(Step(s, inputs[0].event, inputs[0].picked).next, inputs[1..]))
  }

  /** The flags after a sequence of events, and every call made on the way. */
  function Run(s: ItemState, inputs: seq<Input>): (ItemState, seq<Call>)
    requires Admissible(s, inputs)
    decreases |inputs|
  {
    if inputs == [] then (s, [])
    else
      var r := Step(s, inputs[0].event, inputs[0].picked);
      var rest := Run(r.next, inputs[1..]);
      (rest.0, r.calls + rest.1)
  }

  /** Every call made over any admissible sequence of events is well formed. */
  lemma {:induction false} RunCallsWellFormed(s: ItemState, inputs: seq<Input>)
    requires Admissible(s, inputs)
    ensures forall c :: c in Run(s, inputs).1 ==> WellFormedCall(c)
    decreases |inputs|
  {
    if inputs != [] {
      StepCallsWellFormed(s, inputs[0].event, inputs[0].picked);
      RunCallsWellFormed(Step(s, inputs[0].event, inputs[0].picked).next, inputs[1..]);
    }
  }

  /** What the engine last heard: the `hovered` and `dragging` of the most
      recent call (its default interaction before any call). */
  datatype View = View(hovered: bool, dragging: bool)

  const InitialView: View := View(false, false)

  function ViewAfter(v: View, calls: seq<Call>): View {
    if calls == [] then v else View(calls[|calls| - 1].hovered, calls[|calls| - 1].dragging)
  }

  /** The engine's view agrees with the item's flags. */
  predicate Informed(s: ItemState, v: View) {
    v.hovered == (s.hovering || s.dragging) && v.dragging == s.dragging
  }

  /** With corrected hover moves, the last call the engine received always
      describes the item's current hover and drag state. */
  lemma {:induction false} RunKeepsEngineInformed(s: ItemState, v: View, inputs: seq<Input>)
    requires Admissible(s, inputs)
    requires Informed(s, v)
    ensures Informed(Run(s, inputs).0, ViewAfter(v, Run(s, inputs).1))
    decreases |inputs|
  {
    if inputs != [] {
      var r := Step(s, inputs[0].event, inputs[0].picked);
      var v' := ViewAfter(v, r.calls);
      assert Informed(r.next, v') by {
        if r.calls != [] {
          assert r.calls[0] in r.calls;
        }
      }
      RunKeepsEngineInformed(r.next, v', inputs[1..]);
      var rest := Run(r.next, inputs[1..]);
      assert ViewAfter(v', rest.1) == ViewAfter(v, r.calls + rest.1) by {
        if rest.1 != [] {
          assert (r.calls + rest.1)[|r.calls + rest.1| - 1] == rest.1[|rest.1| - 1];
        }
      }
    }
  }

  /** As written, a hover move that neither picks nor was hovering ends a
      drag without telling the engine: after an accepted press the engine
      believes a drag is under way, and it still does after the move,
      although the item no longer drags. */
  lemma HoverMoveAsWrittenLosesDragEnd(p: Point, q: Point)
    ensures var pressed := Step(Initial, MousePress(p), true);
      && pressed.next == ItemState(false, true)
      && Informed(pressed.next, ViewAfter(InitialView, pressed.calls))
      && var moved := HoverMoveAsWritten(pressed.next, q, false);
         && moved.calls == []
         && !moved.next.dragging
         && ViewAfter(ViewAfter(InitialView, pressed.calls), moved.calls).dragging
         && !Informed(moved.next, ViewAfter(ViewAfter(InitialView, pressed.calls), moved.calls))
  {
  }

  // ---------------------------------------------------------------------
  // The item
  // ---------------------------------------------------------------------

  class GizmoInteractionItem {
    var hovering: bool
    var dragging: bool
    /** The calls of `updateInteraction` made so far, oldest first. */
    var calls: seq<Call>

    function State(): ItemState
      reads this
    {
      ItemState(hovering, dragging)
    }

    constructor ()
      ensures State() == Initial && calls == []
    {
      hovering, dragging, calls := false, false, [];
    }

    method CallUpdateInteraction(pos: Point, dragStarted: bool)
      modifies this`calls
      ensures calls == old(calls) + [CallIn(State(), pos, dragStarted)]
    {
      calls := calls + [Call(pos, hovering || dragging, dragStarted, dragging)];
    }

    method HoverEnterEvent(pos: Point, picked: bool) returns (accepted: bool)
      requires !hovering
      modifies this
      ensures var r := Step(old(State()), HoverEnter(pos), picked);
        State() == r.next && accepted == r.accepted && calls == old(calls) + r.calls
    {
      if picked {
        accepted := true;
        hovering := true;
        CallUpdateInteraction(pos, false);
      } else {
        accepted := false;
      }
    }

    method HoverLeaveEvent(pos: Point) returns (accepted: bool)
      modifies this
      ensures var r := Step(old(State()), HoverLeave(pos), false);
        State() == r.next && accepted == r.accepted && calls == old(calls) + r.calls
    {
      if hovering {
        accepted := true;
        hovering := false;
        CallUpdateInteraction(pos, false);
      } else {
        accepted := false;
      }
    }

    /** The hover move handler, corrected so that a drag it ends is
        reported. */
    method HoverMoveEvent(pos: Point, picked: bool) returns (accepted: bool)
      modifies this
      ensures var r := Step(old(State()), HoverMove(pos), picked);
        State() == r.next && accepted == r.accepted && calls == old(calls) + r.calls
    {
      var wasDragging := dragging;
      dragging := false;
      if picked {
        accepted := true;
        hovering := true;
        CallUpdateInteraction(pos, false);
      } else if hovering || wasDragging {
        accepted := true;
        hovering := false;
        CallUpdateInteraction(pos, false);
      } else {
        accepted := false;
      }
    }

    method MousePressEvent(pos: Point, picked: bool) returns (accepted: bool)
      requires !dragging
      modifies this
      ensures var r := Step(old(State()), MousePress(pos), picked);
        State() == r.next && accepted == r.accepted && calls == old(calls) + r.calls
    {
      if picked {
        accepted := true;
        dragging := true;
        CallUpdateInteraction(pos, true);
      } else {
        accepted := false;
      }
    }

    method MouseReleaseEvent(pos: Point) returns (accepted: bool)
      modifies this
      ensures var r := Step(old(State()), MouseRelease(pos), false);
        State() == r.next && accepted == r.accepted && calls == old(calls) + r.calls
    {
      if !dragging {
        return false;
      }
      accepted := true;
      dragging := false;
      CallUpdateInteraction(pos, false);
    }

    method MouseMoveEvent(pos: Point) returns (accepted: bool)
      modifies this
      ensures var r := Step(old(State()), MouseMove(pos), false);
        State() == r.next && accepted == r.accepted && calls == old(calls) + r.calls
    {
      if !dragging {
        return false;
      }
      accepted := true;
      CallUpdateInteraction(pos, false);
    }
  }
}
