/**
 * `FloatingSheetTransitionBehaviour`: the gesture-driven transition between
 * two sheet states.
 *
 * A drag that begins while no transition is held picks the next state in the
 * drag's direction, starts an animator towards it and pauses it at once, and
 * records the offset between the finger and the initial anchor. Each changed
 * sample sets the animator's fraction to the (unclamped) progress of the
 * de-drifted finger between the two anchors. The end of the drag decides,
 * from where the finger would come to rest, whether to run the animator
 * forward or in reverse, hands it to the animation driver and drops the
 * transition. The driver's completion then makes the terminal state current.
 *
 * The pure functions `AfterBegan`, `AfterChanged` and `Released` are the specification
 * of the three gesture phases; the class `TransitionBehaviour` performs them
 * on its `currentTransition` field.
 */
module TransitionEngine {
  import opened Optional
  import opened Geometry
  import opened SheetContext
  import opened SheetPosition
  import opened SheetState
  import opened Gestures
  import opened TargetSelection

  /** What the engine sets on a `UIViewPropertyAnimator`. */
  datatype AnimatorPhase = Running | Paused | Stopped

  /** An animator from the appearance of `initialState` to that of `nextState`. */
  datatype Animator = Animator(
    initialState: SheetState,
    nextState: SheetState,
    phase: AnimatorPhase,
    fraction: real,
    reversed: bool)

  /** `UIViewAnimatingPosition`: where an animator reports it stopped. */
  datatype AnimatingPosition = End | Start | Current

  /** `UIGestureRecognizer.State` */
  datatype PanPhase = Possible | Began | Changed | Ended | Cancelled | Failed

  /** The transition held between a drag's *began* and its *ended*. */
  datatype Transition = Transition(
    animator: Animator,
    initialDelta: Point,
    initialState: SheetState,
    initialPosition: Point,
    finalState: SheetState,
    finalPosition: Point)
  {
    /** The de-drifted gesture position: the finger minus the captured offset. */
    function Position(g: Gesture): (p: Point)
      ensures Add(p, initialDelta) == g.center
    {
      Sub(g.center, initialDelta)
    }

    /** Where the de-drifted finger would come to rest. */
    function ProjectedPosition(g: Gesture): (p: Point)
      ensures g.velocity.y > 0.0 ==> p.y > Position(g).y
      ensures g.velocity.y < 0.0 ==> p.y < Position(g).y
      ensures g.velocity.y == 0.0 ==> p.y == Position(g).y
    {
      ProjectedStopPoint(Gesture(Position(g), g.velocity))
    }

    /** The de-drifted finger's place between the two anchors along y; not clamped. */
    function Progress(g: Gesture): (p: real)
      requires finalPosition.y != initialPosition.y
      ensures Position(g).y == initialPosition.y + p * (finalPosition.y - initialPosition.y)
    {
      var span := finalPosition.y - initialPosition.y;
      var moved := Position(g).y - initialPosition.y;
      assert (moved / span) * span == moved;
      moved / span
    }

    /**
     * A held transition moves along y, its animator runs between its own two
     * states, and the animator is never running while the finger drives it.
     */
    ghost predicate Valid() {
      && finalPosition.y != initialPosition.y
      && animator.initialState == initialState
      && animator.nextState == finalState
      && animator.phase != Running
    }
  }

  /** The progress of the gesture the offset was captured from is zero. */
  lemma ProgressZeroAtCapture(t: Transition, g: Gesture)
    requires t.finalPosition.y != t.initialPosition.y
    requires t.initialDelta == Sub(g.center, t.initialPosition)
    ensures t.Position(g) == t.initialPosition
    ensures t.Progress(g) == 0.0
  {
  }

  /** Progress is one exactly when the de-drifted finger is level with the final anchor. */
  lemma ProgressOneAtFinalAnchor(t: Transition, g: Gesture)
    requires t.finalPosition.y != t.initialPosition.y
    ensures t.Progress(g) == 1.0 <==> t.Position(g).y == t.finalPosition.y
  {
    var span := t.finalPosition.y - t.initialPosition.y;
    var moved := t.Position(g).y - t.initialPosition.y;
    assert t.Progress(g) == moved / span;
    if moved / span == 1.0 {
      assert moved == (moved / span) * span;
    }
  }

  /** Progress is not clamped: every real value is the progress of some gesture. */
  lemma ProgressUnclamped(t: Transition, p: real)
    requires t.finalPosition.y != t.initialPosition.y
    ensures exists g: Gesture :: t.Progress(g) == p
  {
    var span := t.finalPosition.y - t.initialPosition.y;
    var g := Gesture(Point(0.0, t.initialDelta.y + t.initialPosition.y + p * span), Origin);
    assert t.Position(g).y - t.initialPosition.y == p * span;
    assert t.Progress(g) == (p * span) / span;
  }

  /** The next transition after a *began* sample (`startTransition(gesture:)`). */
  function AfterBegan(held: Option<Transition>, states: seq<SheetState>, current: Option<SheetState>,
                 ctx: Context, g: Gesture): (r: Option<Transition>)
    requires held.Some? ==> held.value.Valid()
    ensures r.Some? ==> r.value.Valid()
    ensures r.Some? ==> r.value.Progress(g) == 0.0 && r.value.Position(g) == r.value.initialPosition
    ensures r.Some? ==> r.value.animator.phase == Paused
    ensures held.None? ==>
      (r.Some? <==> current.Some? && NextExpectedState(states, ctx, current.value, g).Some?)
    ensures held.None? && r.Some? ==>
      var k := NextExpectedState(states, ctx, current.value, g).value;
      && r.value.initialState == current.value
      && r.value.finalState == states[k]
      && r.value.initialPosition == Anchor(current.value, ctx)
      && r.value.finalPosition == Anchor(states[k], ctx)
      && r.value.animator.fraction == 0.0 && !r.value.animator.reversed
    ensures held.Some? ==>
      && r.Some?
      && r.value.initialState == held.value.initialState
      && r.value.finalState == held.value.finalState
      && r.value.initialPosition == held.value.initialPosition
      && r.value.finalPosition == held.value.finalPosition
      && r.value.animator == held.value.animator.(phase := Paused)
  {
    match held
    case Some(t) =>
      Some(t.(animator := t.animator.(phase := Paused), initialDelta := Sub(g.center, t.initialPosition)))
    case None =>
      if current.None? then None
      else
        match NextExpectedState(states, ctx, current.value, g)
        case None => None
        case Some(k) =>
          NextExpectedStateMoves(states, ctx, current.value, g);
          var initialPosition := Anchor(current.value, ctx);
          Some(Transition(
            Animator(current.value, states[k], Paused, 0.0, false),
            Sub(g.center, initialPosition),
            current.value, initialPosition,
            states[k], Anchor(states[k], ctx)))
  }

  /** The next transition after a *changed* sample (`updateTransition(gesture:)`). */
  function AfterChanged(held: Option<Transition>, g: Gesture): (r: Option<Transition>)
    requires held.Some? ==> held.value.Valid()
    ensures r.Some? <==> held.Some?
    ensures r.Some? ==>
      && r.value.Valid()
      && r.value == held.value.(animator := r.value.animator)
      && r.value.animator == held.value.animator.(fraction := r.value.animator.fraction)
      && (r.value.animator.fraction == 0.0 <==> held.value.Position(g).y == held.value.initialPosition.y)
      && (r.value.animator.fraction == 1.0 <==> held.value.Position(g).y == held.value.finalPosition.y)
    ensures r.Some? ==> r.value.animator.fraction == held.value.Progress(g)
  {
    match held
    case None => None
    case Some(t) =>
      ProgressOneAtFinalAnchor(t, g);
      Some(t.(animator := t.animator.(fraction := t.Progress(g))))
  }

  /**
   * Whether the end of a drag runs the animator in reverse: always when the
   * gesture was cancelled or failed, otherwise exactly when the first state
   * nearest to the projected stop point is the initial one.
   */
  function ShouldReverse(t: Transition, states: seq<SheetState>, ctx: Context, g: Gesture,
                         canceled: bool): (r: bool)
    ensures r <==>
      canceled ||
      exists k: nat :: IsFirstNearest(states, ctx, t.ProjectedPosition(g).y, k) && states[k].id == t.initialState.id
  {
    var y := t.ProjectedPosition(g).y;
    var closest := ClosestState(states, ctx, Finite(y));
    forall k: nat | IsFirstNearest(states, ctx, y, k)
      ensures closest == Some(k)
    {
      FirstNearestUnique(states, ctx, y, k, closest.value);
    }
    || canceled
    || match closest
       case None => false
       case Some(k) => states[k].id == t.initialState.id
  }

  /**
   * The release decision as the source computes it, with the projected y of
   * `projectedStopPoint()` taken literally: at zero vertical velocity it is
   * NaN, no distance compares less than another, and `min(by:)` keeps the
   * catalog's first state. In motion it agrees with `ShouldReverse`.
   */
  function ShouldReverseAsWritten(t: Transition, states: seq<SheetState>, ctx: Context, g: Gesture,
                                  canceled: bool): (r: bool)
    ensures canceled ==> r
    ensures g.velocity.y != 0.0 ==> r == ShouldReverse(t, states, ctx, g, canceled)
    ensures !canceled && g.velocity.y == 0.0 ==>
      (r <==> |states| > 0 && states[0].id == t.initialState.id)
  {
    || canceled
    || match ClosestState(states, ctx, ProjectedStopPointAsWritten(Gesture(t.Position(g), g.velocity)).y)
       case None => false
       case Some(k) => states[k].id == t.initialState.id
  }

  /** A drag from full (catalog entry 2) towards medium (entry 1) of `ThreeStates`, paused. */
  function DragFromFull(): (t: Transition)
    ensures t.Valid()
  {
    var s := ThreeStates();
    assert AnchorY(s[1], Screen) == 300.0;
    assert AnchorY(s[2], Screen) == 0.0;
    Transition(Animator(s[2], s[1], Paused, 0.0, false), Origin,
               s[2], Anchor(s[2], Screen), s[1], Anchor(s[1], Screen))
  }

  /** The finger at rest ten points below the full anchor. */
  const RestBelowFull: Gesture := Gesture(Point(0.0, 10.0), Origin)

  /** Ten points below the full anchor, full is the nearest state. */
  lemma FullNearestBelowIt()
    ensures IsFirstNearest(ThreeStates(), Screen, 10.0, 2)
  {
    var s := ThreeStates();
    assert AnchorY(s[0], Screen) == 500.0;
    assert AnchorY(s[1], Screen) == 300.0;
    assert AnchorY(s[2], Screen) == 0.0;
  }

  /**
   * A drag from full towards medium released at rest ten points below the
   * full anchor: the nearest state is full, so the sheet should settle back
   * on it, yet the source's NaN projection picks the catalog's first state
   * (minimal) and runs the animator forward to medium.
   */
  lemma ReleaseAtRestAsWritten()
    ensures !ShouldReverseAsWritten(DragFromFull(), ThreeStates(), Screen, RestBelowFull, false)
    ensures ShouldReverse(DragFromFull(), ThreeStates(), Screen, RestBelowFull, false)
  {
    FullNearestBelowIt();
    assert DragFromFull().ProjectedPosition(RestBelowFull).y == 10.0;
    assert ThreeStates()[2].id == DragFromFull().initialState.id;
    assert ThreeStates()[0].id != DragFromFull().initialState.id;
  }

  /**
   * The animator handed to the driver at the end of a drag
   * (`finishTransition(gesture:isCanceled:)`): it continues from its current
   * fraction, in reverse when `ShouldReverse` says so.
   */
  function Released(held: Option<Transition>, states: seq<SheetState>, ctx: Context, g: Gesture,
                    canceled: bool): (r: Option<Animator>)
    ensures r.Some? <==> held.Some?
    ensures r.Some? ==>
      && r.value.phase == Running
      && r.value.initialState == held.value.animator.initialState
      && r.value.nextState == held.value.animator.nextState
      && r.value.fraction == held.value.animator.fraction
      && (canceled ==> r.value.reversed)
      && (r.value.reversed <==> ShouldReverse(held.value, states, ctx, g, canceled))
  {
    match held
    case None => None
    case Some(t) =>
      Some(t.animator.(phase := Running, reversed := ShouldReverse(t, states, ctx, g, canceled)))
  }

  /** The state the completion handler makes current, if any. */
  function CompletionState(a: Animator, position: AnimatingPosition): (r: Option<SheetState>)
    ensures position == Current <==> r.None?
    ensures position == End ==> r == Some(a.nextState)
    ensures position == Start ==> r == Some(a.initialState)
  {
    match position
    case End => Some(a.nextState)
    case Start => Some(a.initialState)
    case Current => None
  }

  /** Where a running animator stops when the driver lets it finish: at its start when reversed. */
  function NaturalEnd(a: Animator): AnimatingPosition {
    if a.reversed then Start else End
  }

  /**
   * A cancelled drag settles back on the state it started from; a drag whose
   * release points nearest to the initial state does too; any other release
   * settles on the final state.
   */
  lemma ReleaseSettlesOn(t: Transition, states: seq<SheetState>, ctx: Context, g: Gesture, canceled: bool)
    requires t.Valid()
    ensures var a := Released(Some(t), states, ctx, g, canceled).value;
      CompletionState(a, NaturalEnd(a))
        == if ShouldReverse(t, states, ctx, g, canceled) then Some(t.initialState) else Some(t.finalState)
    ensures canceled ==>
      var a := Released(Some(t), states, ctx, g, canceled).value;
      CompletionState(a, NaturalEnd(a)) == Some(t.initialState)
  {
  }

  /** The applier boundary: the view records the state it was last told to show. */
  class SheetView {
    var currentState: Option<SheetState>
    var context: Context

    constructor (ctx: Context)
      ensures currentState == None && context == ctx
    {
      currentState := None;
      context := ctx;
    }

    /** `setCurrentState(_:animated:)`; the rendering itself is not modelled. */
    method SetCurrentState(s: SheetState)
      modifies this
      ensures currentState == Some(s) && context == old(context)
    {
      currentState := Some(s);
    }
  }

  class TransitionBehaviour {
    const view: SheetView
    var states: seq<SheetState>
    var currentTransition: Option<Transition>

    ghost predicate Valid()
      reads this
    {
      currentTransition.Some? ==> currentTransition.value.Valid()
    }

    constructor (view: SheetView)
      ensures Valid() && this.view == view
      ensures states == [] && currentTransition == None
    {
      this.view := view;
      states := [];
      currentTransition := None;
    }

    /** `states = s` */
    method SetStates(s: seq<SheetState>)
      requires Valid()
      modifies this
      ensures Valid() && states == s && currentTransition == old(currentTransition)
    {
      states := s;
    }

    /** `isTransitioning`: a transition is held. */
    predicate IsTransitioning()
      reads this
      ensures IsTransitioning() <==> currentTransition.Some?
    {
      currentTransition.Some?
    }

    /** `haveTransition(for:)`: a drag beginning now, with nothing held, would start a transition. */
    predicate HaveTransition(g: Gesture)
      reads this, view
      ensures HaveTransition(g) <==> AfterBegan(None, states, view.currentState, view.context, g).Some?
    {
      view.currentState.Some? && NextExpectedState(states, view.context, view.currentState.value, g).Some?
    }

    /** `didPan(state:gesture:)`: dispatch on the gesture phase. */
    method DidPan(phase: PanPhase, g: Gesture) returns (released: Option<Animator>)
      requires Valid()
      modifies this
      ensures Valid() && states == old(states)
      ensures phase == Began ==>
        currentTransition == AfterBegan(old(currentTransition), states, view.currentState, view.context, g)
      ensures phase == Changed ==> currentTransition == AfterChanged(old(currentTransition), g)
      ensures phase in {Ended, Cancelled, Failed} ==>
        && currentTransition == None
        && released == Released(old(currentTransition), states, view.context, g, phase != Ended)
      ensures phase == Possible ==> currentTransition == old(currentTransition)
      ensures phase !in {Ended, Cancelled, Failed} ==> released == None
    {
      released := None;
      match phase {
        case Began => StartTransition(g);
        case Changed => UpdateTransition(g);
        case Ended => released := FinishTransition(g, false);
        case Cancelled => released := FinishTransition(g, true);
        case Failed => released := FinishTransition(g, true);
        case Possible =>
      }
    }

    /** `startTransition(gesture:)` */
    method StartTransition(g: Gesture)
      requires Valid()
      modifies this
      ensures Valid() && states == old(states)
      ensures currentTransition == AfterBegan(old(currentTransition), states, view.currentState, view.context, g)
    {
      if currentTransition.None? {
        if view.currentState.None? {
          return;
        }
        var initialState := view.currentState.value;
        var next := NextExpectedState(states, view.context, initialState, g);
        if next.None? {
          return;
        }
        var nextState := states[next.value];
        NextExpectedStateMoves(states, view.context, initialState, g);
        var animator := Animator(initialState, nextState, Running, 0.0, false);
        animator := animator.(phase := Paused);
        var initialPosition := Anchor(initialState, view.context);
        var initialDelta := Sub(g.center, initialPosition);
        currentTransition := Some(Transition(
          animator, initialDelta, initialState, initialPosition,
          nextState, Anchor(nextState, view.context)));
      } else {
        var t := currentTransition.value;
        t := t.(animator := t.animator.(phase := Paused));
        t := t.(initialDelta := Sub(g.center, t.initialPosition));
        currentTransition := Some(t);
      }
    }

    /** `updateTransition(gesture:)` */
    method UpdateTransition(g: Gesture)
      requires Valid()
      modifies this
      ensures Valid() && states == old(states)
      ensures currentTransition == AfterChanged(old(currentTransition), g)
    {
      if currentTransition.None? {
        return;
      }
      var t := currentTransition.value;
      var fractionComplete := t.Progress(g);
      currentTransition := Some(t.(animator := t.animator.(fraction := fractionComplete)));
    }

    /** `finishTransition(gesture:isCanceled:)`: the continued animator goes to the driver. */
    method FinishTransition(g: Gesture, isCanceled: bool) returns (released: Option<Animator>)
      requires Valid()
      modifies this
      ensures Valid() && states == old(states)
      ensures currentTransition == None
      ensures released == Released(old(currentTransition), states, view.context, g, isCanceled)
    {
      if currentTransition.None? {
        return None;
      }
      var t := currentTransition.value;
      var shouldReverse: bool;
      if isCanceled {
        shouldReverse := true;
      } else {
        var projected := t.ProjectedPosition(g);
        var closest := ClosestState(states, view.context, Finite(projected.y));
        shouldReverse := closest.Some? && states[closest.value].id == t.initialState.id;
      }
      var animator := t.animator.(reversed := shouldReverse);
      animator := animator.(phase := Running);
      released := Some(animator);
      currentTransition := None;
    }

    /**
     * `startTransition(from:to:)`: stop the held transition's animator (the
     * transition itself stays held) and start a new animator between the two
     * given states, handed to the driver.
     */
    method StartDirectTransition(initialState: SheetState, nextState: SheetState) returns (launched: Animator)
      requires Valid()
      modifies this
      ensures Valid() && states == old(states)
      ensures launched == Animator(initialState, nextState, Running, 0.0, false)
      ensures old(currentTransition).None? ==> currentTransition == None
      ensures old(currentTransition).Some? ==>
        currentTransition == Some(old(currentTransition).value.(
          animator := old(currentTransition).value.animator.(phase := Stopped)))
    {
      if currentTransition.Some? {
        var t := currentTransition.value;
        currentTransition := Some(t.(animator := t.animator.(phase := Stopped)));
      }
      launched := Animator(initialState, nextState, Running, 0.0, false);
    }

    /** The completion handler of an animator: `.end` and `.start` make a state current, `.current` does nothing. */
    method AnimationDidComplete(a: Animator, position: AnimatingPosition)
      modifies view
      ensures view.context == old(view.context)
      ensures position == End ==> view.currentState == Some(a.nextState)
      ensures position == Start ==> view.currentState == Some(a.initialState)
      ensures position == Current ==> view.currentState == old(view.currentState)
    {
      match position {
        case End => view.SetCurrentState(a.nextState);
        case Start => view.SetCurrentState(a.initialState);
        case Current =>
      }
    }
  }

  // ----- a worked drag -----

  /** A drag from medium that is cancelled settles back on medium. */
  method CancelledDragSettlesBack(down: Gesture)
    requires down.velocity.y > 0.0
  {
    var view := new SheetView(Screen);
    var engine := new TransitionBehaviour(view);
    engine.SetStates(ThreeStates());
    view.SetCurrentState(ThreeStates()[1]);
    DirectionalScenario(down, down.(velocity := Point(0.0, -1.0)));
    var none := engine.DidPan(Began, down);
    assert engine.currentTransition.Some?;
    assert engine.currentTransition.value.finalState == ThreeStates()[0];
    none := engine.DidPan(Changed, down.(center := Add(down.center, Point(0.0, 40.0))));
    var released := engine.DidPan(Cancelled, down);
    assert engine.currentTransition == None;
    assert released.Some? && released.value.reversed;
    engine.AnimationDidComplete(released.value, NaturalEnd(released.value));
    assert view.currentState == Some(ThreeStates()[1]);
  }
}
