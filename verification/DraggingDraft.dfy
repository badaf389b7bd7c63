/**
 * `FloatingSheetDraggingBehaviour`: the earlier drag handler. On *began* it
 * picks the target by gravitation from the pointer's position (every state
 * but the current one is a candidate), makes that target current inside the
 * animation block and starts the animator; *changed* samples set the
 * animator's fraction from the pointer's travel; any end of the drag makes
 * the target current and drops the transition. Its gesture carries a
 * position only.
 */
module DraggingDraft {
  import opened Optional
  import opened Geometry
  import opened SheetContext
  import opened SheetState
  import opened Gestures
  import opened TargetSelection
  import opened TransitionEngine

  /** The draft's transition: the gesture it began with replaces the captured offset. */
  datatype DraftTransition = DraftTransition(
    animator: Animator,
    initialGesture: Point,
    initialState: SheetState,
    initialPosition: Point,
    finalState: SheetState,
    finalPosition: Point)
  {
    /**
     * The pointer's travel since the drag began, as a fraction of the way
     * from the initial to the final anchor along y; none when the two anchors
     * are level and the source's division has a zero divisor.
     */
    function Progress(g: Point): (r: Option<real>)
      ensures r.Some? <==> finalPosition.y != initialPosition.y
      ensures r.Some? ==> g.y - initialGesture.y == r.value * (finalPosition.y - initialPosition.y)
    {
      if finalPosition.y == initialPosition.y then None
      else
        var gestureDelta := Sub(initialGesture, initialPosition);
        var gesturePosition := Sub(g, gestureDelta);
        var span := finalPosition.y - initialPosition.y;
        assert ((gesturePosition.y - initialPosition.y) / span) * span == gesturePosition.y - initialPosition.y;
        Some((gesturePosition.y - initialPosition.y) / span)
    }

    /** The animator runs between the transition's own two states. */
    ghost predicate Valid() {
      && animator.initialState == initialState
      && animator.nextState == finalState
      && finalState.id != initialState.id
    }
  }

  /** Progress is defined exactly when the anchors differ in y, and is zero for the gesture the drag began with. */
  lemma DraftProgressAtStart(t: DraftTransition)
    ensures t.Progress(t.initialGesture).Some? <==> t.finalPosition.y != t.initialPosition.y
    ensures t.Progress(t.initialGesture).Some? ==> t.Progress(t.initialGesture).value == 0.0
  {
  }

  /** Progress is one once the pointer has moved by the distance between the anchors along y. */
  lemma DraftProgressAfterFullMove(t: DraftTransition, dx: real)
    requires t.finalPosition.y != t.initialPosition.y
    ensures t.Progress(Add(t.initialGesture, Point(dx, t.finalPosition.y - t.initialPosition.y))) == Some(1.0)
  {
    var span := t.finalPosition.y - t.initialPosition.y;
    var g := Add(t.initialGesture, Point(dx, span));
    var gesturePosition := Sub(g, Sub(t.initialGesture, t.initialPosition));
    assert gesturePosition.y - t.initialPosition.y == span;
    assert span / span == 1.0;
    assert t.Progress(g) == Some(span / span);
  }

  /**
   * The draft's progress is the gesture-driven engine's progress for a
   * transition whose captured offset is the one at the draft's first gesture.
   */
  lemma DraftProgressIsEngineProgress(t: DraftTransition, g: Point, velocity: Point)
    requires t.finalPosition.y != t.initialPosition.y
    ensures
      var e := Transition(t.animator, Sub(t.initialGesture, t.initialPosition),
                          t.initialState, t.initialPosition, t.finalState, t.finalPosition);
      t.Progress(g) == Some(e.Progress(Gesture(g, velocity)))
  {
  }

  /** The next transition after a *began* sample (`startTransition(gesture:)`). */
  function DraftBegan(held: Option<DraftTransition>, states: seq<SheetState>, current: Option<SheetState>,
                      ctx: Context, g: Point): (r: Option<DraftTransition>)
    requires held.Some? ==> held.value.Valid()
    ensures r.Some? ==> r.value.Valid()
    ensures held.Some? ==> r == held
    ensures held.None? ==>
      (r.Some? <==> current.Some? && exists k :: 0 <= k < |states| && states[k].id != current.value.id)
    ensures held.None? && r.Some? ==>
      && r.value.initialState == current.value
      && r.value.initialGesture == g
      && r.value.initialPosition == Anchor(current.value, ctx)
      && r.value.finalPosition == Anchor(r.value.finalState, ctx)
      && r.value.animator.phase == Running
      && r.value.animator.fraction == 0.0
      && !r.value.animator.reversed
      && exists k: nat :: IsStrongest(states, ctx, g, Some(current.value.id), k) && r.value.finalState == states[k]
  {
    if held.Some? then held
    else if current.None? then None
    else
      match ClosestByGravity(states, ctx, g, Some(current.value.id))
      case None =>
        forall k | 0 <= k < |states|
          ensures states[k].id == current.value.id
        {
          assert !Eligible(states, Some(current.value.id), k);
        }
        None
      case Some(k) =>
        var next := states[k];
        assert IsStrongest(states, ctx, g, Some(current.value.id), k);
        Some(DraftTransition(
          Animator(current.value, next, Running, 0.0, false),
          g, current.value, Anchor(current.value, ctx), next, Anchor(next, ctx)))
  }

  /**
   * The next transition after a *changed* sample (`updateTransition(gesture:)`):
   * only the animator's fraction moves. Between level anchors the fraction is
   * left as it was.
   */
  function DraftChanged(held: Option<DraftTransition>, g: Point): (r: Option<DraftTransition>)
    requires held.Some? ==> held.value.Valid()
    ensures r.Some? <==> held.Some?
    ensures r.Some? ==>
      && r.value.Valid()
      && r.value == held.value.(animator := r.value.animator)
      && r.value.animator == held.value.animator.(fraction := r.value.animator.fraction)
    ensures r.Some? && held.value.Progress(g).Some? ==> r.value.animator.fraction == held.value.Progress(g).value
    ensures held.Some? && held.value.Progress(g).None? ==> r == held
    ensures r.Some? && held.value.finalPosition.y != held.value.initialPosition.y ==>
      && (r.value.animator.fraction == 0.0 <==> g.y == held.value.initialGesture.y)
      && (r.value.animator.fraction == 1.0 <==>
            g.y - held.value.initialGesture.y == held.value.finalPosition.y - held.value.initialPosition.y)
  {
    match held
    case None => None
    case Some(t) =>
      match t.Progress(g)
      case None => held
      case Some(f) =>
        DraftFractionMeaning(t, g);
        Some(t.(animator := t.animator.(fraction := f)))
  }

  lemma DraftFractionMeaning(t: DraftTransition, g: Point)
    requires t.finalPosition.y != t.initialPosition.y
    ensures t.Progress(g).value == 0.0 <==> g.y == t.initialGesture.y
    ensures t.Progress(g).value == 1.0 <==>
      g.y - t.initialGesture.y == t.finalPosition.y - t.initialPosition.y
  {
    var span := t.finalPosition.y - t.initialPosition.y;
    var moved := g.y - t.initialGesture.y;
    assert t.Progress(g).value == moved / span;
    if moved / span == 1.0 {
      assert moved == (moved / span) * span;
    }
    if moved / span == 0.0 {
      assert moved == (moved / span) * span;
    }
  }

  class DraggingBehaviour {
    const view: SheetView
    const states: seq<SheetState>
    var currentTransition: Option<DraftTransition>

    ghost predicate Valid()
      reads this
    {
      currentTransition.Some? ==> currentTransition.value.Valid()
    }

    /** `init(in:states:)`; attaching the pan recognizer is not modelled. */
    constructor (view: SheetView, states: seq<SheetState>)
      ensures Valid() && this.view == view && this.states == states
      ensures currentTransition == None
    {
      this.view := view;
      this.states := states;
      currentTransition := None;
    }

    /** `didPanFloatingSheet(recognizer:)`: every end of the drag finishes it. */
    method DidPan(phase: PanPhase, g: Point)
      requires Valid()
      modifies this, view
      ensures Valid()
      ensures view.context == old(view.context)
      ensures phase == Began ==>
        currentTransition == DraftBegan(old(currentTransition), states, old(view.currentState), view.context, g)
      ensures phase == Began && old(currentTransition).None? && currentTransition.Some? ==>
        view.currentState == Some(currentTransition.value.finalState)
      ensures phase == Began && (old(currentTransition).Some? || currentTransition.None?) ==>
        view.currentState == old(view.currentState)
      ensures phase == Changed ==>
        currentTransition == DraftChanged(old(currentTransition), g) && view.currentState == old(view.currentState)
      ensures phase in {Ended, Cancelled, Failed} ==> currentTransition == None
      ensures phase in {Ended, Cancelled, Failed} && old(currentTransition).Some? ==>
        view.currentState == Some(old(currentTransition).value.finalState)
      ensures phase in {Ended, Cancelled, Failed} && old(currentTransition).None? ==>
        view.currentState == old(view.currentState)
      ensures phase == Possible ==>
        currentTransition == old(currentTransition) && view.currentState == old(view.currentState)
    {
      match phase {
        case Began => StartTransition(g);
        case Changed => UpdateTransition(g);
        case Ended => FinishTransition();
        case Cancelled => FinishTransition();
        case Failed => FinishTransition();
        case Possible =>
      }
    }

    /**
     * `startTransition(gesture:)`: a no-op while a transition is held; a new
     * transition's animation block makes its target current at once.
     */
    method StartTransition(g: Point)
      requires Valid()
      modifies this, view
      ensures Valid()
      ensures view.context == old(view.context)
      ensures currentTransition == DraftBegan(old(currentTransition), states, old(view.currentState), view.context, g)
      ensures old(currentTransition).None? && currentTransition.Some? ==>
        view.currentState == Some(currentTransition.value.finalState)
      ensures old(currentTransition).Some? || currentTransition.None? ==>
        view.currentState == old(view.currentState)
    {
      if currentTransition.Some? {
        return;
      }
      var context := view.context;
      if view.currentState.None? {
        return;
      }
      var currentState := view.currentState.value;
      var closest := ClosestByGravity(states, context, g, Some(currentState.id));
      if closest.None? {
        return;
      }
      var nextState := states[closest.value];
      var animator := Animator(currentState, nextState, Running, 0.0, false);
      view.SetCurrentState(nextState);
      currentTransition := Some(DraftTransition(
        animator, g, currentState, Anchor(currentState, context),
        nextState, Anchor(nextState, context)));
    }

    /** `updateTransition(gesture:)` */
    method UpdateTransition(g: Point)
      requires Valid()
      modifies this
      ensures Valid()
      ensures currentTransition == DraftChanged(old(currentTransition), g)
    {
      if currentTransition.None? {
        return;
      }
      var t := currentTransition.value;
      var fractionComplete := t.Progress(g);
      if fractionComplete.Some? {
        DraftFractionMeaning(t, g);
        currentTransition := Some(t.(animator := t.animator.(fraction := fractionComplete.value)));
      }
    }

    /** `finishTransition(gesture:)`: the added animation block makes the target current. */
    method FinishTransition()
      requires Valid()
      modifies this, view
      ensures Valid() && currentTransition == None
      ensures view.context == old(view.context)
      ensures old(currentTransition).Some? ==> view.currentState == Some(old(currentTransition).value.finalState)
      ensures old(currentTransition).None? ==> view.currentState == old(view.currentState)
    {
      if currentTransition.None? {
        return;
      }
      var t := currentTransition.value;
      view.SetCurrentState(t.finalState);
      currentTransition := None;
    }
  }
}
