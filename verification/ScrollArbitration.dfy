/**
 * `FloatingSheetScrollingBehaviour`: arbitration between a scroll view
 * hosted in the sheet and the transition engine. When a scroll drag begins,
 * the drag is ceded to the engine if the engine already holds a transition or
 * could start one in the drag's direction. While ceded, every scroll sample
 * is forwarded to the engine as a *changed* sample and the content offset is
 * pinned to the top; the end of the drag forwards the last forwarded sample
 * as *ended*.
 *
 * The pan gesture of the scroll view, which the source reads from the sheet
 * view, is a parameter of each callback.
 */
module ScrollArbitration {
  import opened Optional
  import opened Geometry
  import opened Gestures
  import opened TransitionEngine

  /** The parts of a `UIScrollView` the arbitration touches. */
  class ScrollView {
    var contentOffset: Point
    var adjustedTopInset: real

    constructor (offset: Point, topInset: real)
      ensures contentOffset == offset && adjustedTopInset == topInset
    {
      contentOffset := offset;
      adjustedTopInset := topInset;
    }
  }

  class ScrollingBehaviour {
    var transitionBehaviour: TransitionBehaviour?
    var view: SheetView?
    var isTransitioning: bool
    var lastTransitionGesture: Option<Gesture>

    ghost predicate Valid()
      reads this, transitionBehaviour
    {
      transitionBehaviour != null ==> transitionBehaviour.Valid()
    }

    /** A behaviour wired to an engine and a sheet view; either may be absent. */
    constructor (engine: TransitionBehaviour?, view: SheetView?)
      ensures transitionBehaviour == engine && this.view == view
      ensures !isTransitioning && lastTransitionGesture == None
    {
      transitionBehaviour := engine;
      this.view := view;
      isTransitioning := false;
      lastTransitionGesture := None;
    }

    /**
     * `shouldTransitioningInsteadOfScrolling(for:)`: cede the drag when an
     * engine is present and either holds a transition or has one in the
     * gesture's direction. Ceding is safe: the engine's *began* then leaves
     * it holding a transition, so the samples forwarded after it have
     * something to drive.
     */
    predicate ShouldTransitionInsteadOfScrolling(g: Gesture)
      reads this, transitionBehaviour
      reads if transitionBehaviour != null then {transitionBehaviour.view} else {}
      ensures transitionBehaviour == null ==> !ShouldTransitionInsteadOfScrolling(g)
      ensures transitionBehaviour != null && transitionBehaviour.Valid() ==>
        var tb := transitionBehaviour;
        (ShouldTransitionInsteadOfScrolling(g) <==>
           AfterBegan(tb.currentTransition, tb.states, tb.view.currentState, tb.view.context, g).Some?)
    {
      if transitionBehaviour == null then false
      else if transitionBehaviour.IsTransitioning() then true
      else transitionBehaviour.HaveTransition(g)
    }

    /** `scrollViewWillBeginDragging(_:)` */
    method WillBeginDragging(g: Gesture)
      requires Valid()
      modifies this, transitionBehaviour
      ensures Valid()
      ensures transitionBehaviour == old(transitionBehaviour) && view == old(view)
      ensures transitionBehaviour != null ==> transitionBehaviour.states == old(transitionBehaviour.states)
      ensures lastTransitionGesture == old(lastTransitionGesture)
      ensures view == null || transitionBehaviour == null ==> isTransitioning == old(isTransitioning)
      ensures transitionBehaviour != null && (view == null || !isTransitioning) ==>
        transitionBehaviour.currentTransition == old(transitionBehaviour.currentTransition)
      ensures view != null && transitionBehaviour != null ==>
        isTransitioning == old(ShouldTransitionInsteadOfScrolling(g))
      ensures view != null && transitionBehaviour != null && isTransitioning ==>
        var tb := transitionBehaviour;
        && tb.currentTransition == AfterBegan(old(tb.currentTransition), tb.states, tb.view.currentState, tb.view.context, g)
        && tb.currentTransition.Some?
    {
      if view == null || transitionBehaviour == null {
        return;
      }
      var tb := transitionBehaviour;
      isTransitioning := ShouldTransitionInsteadOfScrolling(g);
      if isTransitioning {
        var none := tb.DidPan(Began, g);
      }
    }

    /** `scrollViewDidScroll(_:)` */
    method DidScroll(scrollView: ScrollView, g: Gesture)
      requires Valid()
      modifies this, scrollView, transitionBehaviour
      ensures Valid()
      ensures transitionBehaviour == old(transitionBehaviour) && view == old(view)
      ensures transitionBehaviour != null ==> transitionBehaviour.states == old(transitionBehaviour.states)
      ensures isTransitioning == old(isTransitioning)
      ensures scrollView.adjustedTopInset == old(scrollView.adjustedTopInset)
      ensures !isTransitioning || view == null || transitionBehaviour == null ==>
        && lastTransitionGesture == old(lastTransitionGesture)
        && scrollView.contentOffset == old(scrollView.contentOffset)
        && (transitionBehaviour != null ==>
              transitionBehaviour.currentTransition == old(transitionBehaviour.currentTransition))
      ensures isTransitioning && view != null && transitionBehaviour != null ==>
        && transitionBehaviour.currentTransition == AfterChanged(old(transitionBehaviour.currentTransition), g)
        && scrollView.contentOffset == Point(0.0, -scrollView.adjustedTopInset)
        && lastTransitionGesture == Some(g)
    {
      if !isTransitioning || view == null || transitionBehaviour == null {
        return;
      }
      var none := transitionBehaviour.DidPan(Changed, g);
      scrollView.contentOffset := Point(0.0, -scrollView.adjustedTopInset);
      lastTransitionGesture := Some(g);
    }

    /**
     * `scrollViewDidEndDragging(_:willDecelerate:)`: forward *ended* with the
     * last forwarded sample, if any, and hand the released animator on.
     */
    method DidEndDragging() returns (released: Option<Animator>)
      requires Valid()
      modifies this, transitionBehaviour
      ensures Valid()
      ensures transitionBehaviour == old(transitionBehaviour) && view == old(view)
      ensures transitionBehaviour != null ==> transitionBehaviour.states == old(transitionBehaviour.states)
      ensures !isTransitioning && lastTransitionGesture == None
      ensures old(lastTransitionGesture).None? || transitionBehaviour == null ==> released == None
      ensures old(lastTransitionGesture).None? && transitionBehaviour != null ==>
        transitionBehaviour.currentTransition == old(transitionBehaviour.currentTransition)
      ensures old(lastTransitionGesture).Some? && transitionBehaviour != null ==>
        var tb := transitionBehaviour;
        && tb.currentTransition == None
        && released == Released(old(tb.currentTransition), tb.states, tb.view.context,
                                old(lastTransitionGesture).value, false)
    {
      released := None;
      if lastTransitionGesture.Some? {
        if transitionBehaviour != null {
          released := transitionBehaviour.DidPan(Ended, lastTransitionGesture.value);
        }
        lastTransitionGesture := None;
      }
      isTransitioning := false;
    }
  }
}
