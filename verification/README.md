# Floating sheet transition engine, modelled in Dafny

A floating sheet is a panel that rests in one of a catalog of named states
(for instance *minimal*, *medium* and *full*). Each state carries a position
rule that resolves to a frame for the available size, a mask rule, an
appearance and a gravity coefficient. The anchor of a state is the origin of
its resolved frame. The user drags the sheet between states:

- When the drag begins, the engine picks the next state in the drag's
  direction. It starts an animator towards that state, pauses it, and
  captures the offset between the finger and the initial anchor.
- Each further sample sets the animator's fraction to the finger's
  de-drifted progress between the two anchors.
- When the drag ends, the engine projects where the finger would come to
  rest. It runs the animator forward, or in reverse when the state nearest
  to that point is the one the drag started from. The code's projection
  is NaN for a release at zero vertical velocity (see "## Findings"); the
  engine class here uses the corrected projection, which is the finger's
  own position at rest, and `ShouldReverseAsWritten` keeps the code's
  decision beside it.
- The animator's completion makes the terminal state current.

A scroll view inside the sheet can cede its drags to the engine. An earlier
drag handler (the "draft") picks its target by a gravitation score instead.

The project has these modules:

- `Geometry`: points, sizes, rectangles and edge insets over `real`, with
  the point and rectangle helpers. `Num` adds the one IEEE value the source
  produces (NaN).
- `SheetContext`, `SheetPosition`, `SheetMask`, `SheetState`: the context,
  the position and mask rule builders as tagged datatypes with evaluation
  functions, and the state record.
- `Gestures`: a pointer sample and its projected stop point. The projection
  is given both as written and with the at-rest case defined.
- `TargetSelection`: the three catalog searches. These are the directional
  next state, the vertically nearest state and the strongest gravitation.
  Each answers with a catalog index.
- `TransitionEngine`: the gesture phases as pure functions on the held
  transition (`AfterBegan`, `AfterChanged`, `Released`), the release
  decision, the completion mapping, and the class `TransitionBehaviour`
  whose methods perform the phases on its `currentTransition` field.
- `DraggingDraft`: the draft handler, the same way.
- `ScrollArbitration`: the scroll delegate that cedes drags to the engine.

Facts about the code that shape the model:

- At the end of a drag the engine drops its transition. A drag that begins
  while the sheet is still settling therefore starts afresh from the current
  state; it does not catch the settling animator. The "began while held"
  branch applies only when a *began* arrives before the previous drag ended.
- The release decision takes the state with the least vertical distance
  over the whole catalog. It does not use a gravitation score over the two
  states of the transition.
- Scroll arbitration has no "content already scrolled away from the top"
  guard.
- The scroll delegate calls the engine's `isTransitioning` and
  `haveTransition(for:)`, which the engine's file does not define. They are
  modelled as "a transition is held" (`IsTransitioning`) and "there is a
  current state and the directional search finds a target"
  (`HaveTransition`).
- State equality is by name (`id`). `FloatingSheetState.swift` declares no
  equality and no gravity coefficient; the coefficient is a field here,
  with default 1.

## Model

| member | source | states |
|---|---|---|
| Geometry.DistanceSquared | bottomsheet-tests/TemporaryBridges/UIKit+Geometry.swift:11-15 | the squared distance `dx² + dy²` is never negative |
| Geometry.DistanceSquaredSymmetric | bottomsheet-tests/TemporaryBridges/UIKit+Geometry.swift:11-15 | distance is symmetric and zero from a point to itself |
| Geometry.SubAfterAdd | bottomsheet-tests/TemporaryBridges/UIKit+Geometry.swift:27-39 | componentwise `-` undoes `+`: `(a + b) - b == a` |
| Geometry.SubSelf | bottomsheet-tests/TemporaryBridges/UIKit+Geometry.swift:34-39 | `a - a` is the zero point |
| Geometry.CenterIsMidpoint | bottomsheet-tests/TemporaryBridges/UIKit+Geometry.swift:19-24 | origin plus half the size is the midpoint between the origin and the far corner |
| Geometry.InsetByNothing | bottomsheet-tests/FloatingSheet/Model/FloatingSheetPosition.swift:41-45 | zero insets leave a rectangle unchanged |
| Geometry.InsetByTwice | bottomsheet-tests/FloatingSheet/Model/FloatingSheetPosition.swift:41-45 | insetting an inset rectangle is one inset by the summed insets |
| Geometry.InsetMovesFarCorner | bottomsheet-tests/FloatingSheet/Model/FloatingSheetPosition.swift:41-45 | an inset moves the far corner by (-right, -bottom) |
| Gestures.Sign | bottomsheet-tests/FloatingSheet/Transitioning/Gesture.swift:17-20 | `sign` is 1, -1 or 0 according to the sign of its argument |
| Gestures.ProjectAxis | bottomsheet-tests/FloatingSheet/Transitioning/Gesture.swift:15-27 | the stop coordinate is `c + v·|v|/1800`; it lies strictly on the side the velocity points to, and equals `c` at rest |
| Gestures.ProjectAxisClosedForm | bottomsheet-tests/FloatingSheet/Transitioning/Gesture.swift:22-25 | for nonzero v, `c - 0.5·v·v / (-900·sign v)` equals `c + v·|v|/1800` and lies on the side of v |
| Gestures.ProjectAxisAsWritten | bottomsheet-tests/FloatingSheet/Transitioning/Gesture.swift:17-24 | the source's per-axis arithmetic is NaN exactly at zero velocity (0/0) and otherwise exactly the stop coordinate of `ProjectAxis` |
| Gestures.ProjectedStopPointAsWritten | bottomsheet-tests/FloatingSheet/Transitioning/Gesture.swift:15-27 | `projectedStopPoint()` as written: each coordinate is NaN exactly when that velocity component is zero, and otherwise the corrected stop coordinate |
| Gestures.ProjectedStopPoint | bottomsheet-tests/FloatingSheet/Transitioning/Gesture.swift:15-27 | the corrected stop point: each coordinate is `c + v·|v|/1800` for its own centre and velocity component |
| Gestures.ProjectedAxesIndependent | bottomsheet-tests/FloatingSheet/Transitioning/Gesture.swift:22-25 | the projected y depends only on `center.y` and `velocity.y`, as written and as corrected |
| SheetPosition.Frame | bottomsheet-tests/FloatingSheet/Model/FloatingSheetPosition.swift:13-45 | `full()`, `relativeBottomHeight` and `absoluteBottomHeight` span the available width from x 0 down to the bottom edge, `full()` from y 0, the other two with their given height; `inseted(i)` moves the near corner in by (left, top) and the far corner in by (right, bottom) |
| SheetPosition.FullFrame | bottomsheet-tests/FloatingSheet/Model/FloatingSheetPosition.swift:17-21 | `full()` has origin (0, 0) and the available size |
| SheetPosition.AbsoluteBottomFrame | bottomsheet-tests/FloatingSheet/Model/FloatingSheetPosition.swift:30-39 | `absoluteBottomHeight(h)` has x 0, the available width, height h, and its bottom edge at the available height |
| SheetPosition.RelativeBottomFrame | bottomsheet-tests/FloatingSheet/Model/FloatingSheetPosition.swift:23-28 | `relativeBottomHeight(r)` is `absoluteBottomHeight(r · height)`; r = 1 gives the frame of `full()` |
| SheetPosition.InsetPositionFrame | bottomsheet-tests/FloatingSheet/Model/FloatingSheetPosition.swift:41-45 | `inseted(i)` moves the origin by (left, top), shrinks width by left + right and height by top + bottom; zero insets are the identity |
| SheetPosition.CustomFrame | bottomsheet-tests/FloatingSheet/Model/FloatingSheetPosition.swift:13-15 | `custom(f)` yields `f(context)` unchanged |
| SheetMask.MaskFrame | bottomsheet-tests/FloatingSheet/Model/FloatingSheetMask.swift:13-35 | a composed mask yields a rectangle exactly when its innermost rule is not `none()` |
| SheetMask.NoMaskFrame | bottomsheet-tests/FloatingSheet/Model/FloatingSheetMask.swift:13-17 | `none()` yields no rectangle in any context |
| SheetMask.ContentInsetsFrame | bottomsheet-tests/FloatingSheet/Model/FloatingSheetMask.swift:19-23 | `insets(i)` yields the content bounds inset by i |
| SheetMask.InsetMaskFrame | bottomsheet-tests/FloatingSheet/Model/FloatingSheetMask.swift:31-35 | `inseted(i)` keeps "no rectangle" and otherwise insets the rectangle by i |
| SheetState.NewState | bottomsheet-tests/FloatingSheet/Model/FloatingSheetState.swift:21-31 | the initializer stores id, position, mask and appearance unchanged |
| SheetState.DefaultStateLooks | bottomsheet-tests/FloatingSheet/Model/FloatingSheetState.swift:21-31 | with the defaults the mask yields no rectangle and the appearance has corner radius 0 and a clear overlay |
| SheetState.Anchor | bottomsheet-tests/FloatingSheet/Transitioning/FloatingSheetDraggingBehaviour.swift:120-122 | a state's anchor is the origin of the frame its position rule resolves to in the context: (0, 0) for `full()`, x 0 and its height above the bottom edge for the two bottom-height rules, the wrapped anchor moved by (left, top) for `inseted` |
| SheetState.AnchorIgnoresLooks | bottomsheet-tests/FloatingSheet/Transitioning/FloatingSheetTransitionBehaviour.swift:177-181 | the anchor depends on the position rule only: replacing the mask or the appearance does not move it |
| SheetState.WithPosition | bottomsheet-tests/FloatingSheet/Model/FloatingSheetState.swift:16-19 | replacing the position keeps the id and the other attributes |
| SheetState.WithMask | bottomsheet-tests/FloatingSheet/Model/FloatingSheetState.swift:16-19 | replacing the mask keeps the id and the other attributes |
| SheetState.WithAppearance | bottomsheet-tests/FloatingSheet/Model/FloatingSheetState.swift:16-19 | replacing the appearance keeps the id and the other attributes |
| TargetSelection.NearestBelowFrom | bottomsheet-tests/FloatingSheet/Transitioning/FloatingSheetTransitionBehaviour.swift:146-155 | the scan finds the least anchor y strictly below the current one, the first listed among equals, and none only when no other state lies below |
| TargetSelection.NearestAboveFrom | bottomsheet-tests/FloatingSheet/Transitioning/FloatingSheetTransitionBehaviour.swift:156-160 | the scan finds the greatest anchor y strictly above the current one, the last listed among equals, and none only when no other state lies above |
| TargetSelection.NextExpectedState | bottomsheet-tests/FloatingSheet/Transitioning/FloatingSheetTransitionBehaviour.swift:143-164 | never the current state; for velocity.y > 0 the nearest state strictly below, otherwise (zero included) the nearest strictly above; none exactly when no state lies that way |
| TargetSelection.NextExpectedStateMoves | bottomsheet-tests/FloatingSheet/Transitioning/FloatingSheetTransitionBehaviour.swift:143-164 | the chosen state's anchor y differs from the current one, greater exactly for downward velocity |
| TargetSelection.DirectionalScenario | bottomsheet-tests/FloatingSheet/Transitioning/FloatingSheetTransitionBehaviour.swift:143-164 | from medium, a downward drag targets minimal and an upward one full |
| TargetSelection.NearestFrom | bottomsheet-tests/FloatingSheet/Transitioning/FloatingSheetTransitionBehaviour.swift:166-175 | the `min(by:)` scan keeps the first of equal least vertical distances, and never moves from its start when the query is NaN |
| TargetSelection.ClosestState | bottomsheet-tests/FloatingSheet/Transitioning/FloatingSheetTransitionBehaviour.swift:166-175 | the first state with the least `abs(anchor.y - p.y)`; none only for an empty catalog; the first state when p.y is NaN |
| TargetSelection.FirstNearestUnique | bottomsheet-tests/FloatingSheet/Transitioning/FloatingSheetTransitionBehaviour.swift:170-172 | the first nearest state is unique, so the release decision is determined |
| TargetSelection.ForceBounds | bottomsheet-tests/FloatingSheet/Transitioning/FloatingSheetDraggingBehaviour.swift:107-108 | for positive gravity the force is positive and at most the gravity |
| TargetSelection.ForceDecreasing | bottomsheet-tests/FloatingSheet/Transitioning/FloatingSheetDraggingBehaviour.swift:107-108 | for positive gravity the force strictly decreases as the squared distance grows |
| TargetSelection.ForceIncreasingInGravity | bottomsheet-tests/FloatingSheet/Transitioning/FloatingSheetDraggingBehaviour.swift:107-108 | at one distance a larger gravity gives a strictly larger force |
| TargetSelection.StrongestFrom | bottomsheet-tests/FloatingSheet/Transitioning/FloatingSheetDraggingBehaviour.swift:101-117 | the filter, map and `max(by:)` scan keeps the first eligible state of greatest force |
| TargetSelection.ClosestByGravity | bottomsheet-tests/FloatingSheet/Transitioning/FloatingSheetDraggingBehaviour.swift:98-118 | the eligible state of greatest force, first listed among equals, never the excluded one; none exactly when every state is excluded |
| TargetSelection.HeavierWinsAtEqualDistance | bottomsheet-tests/FloatingSheet/Transitioning/FloatingSheetDraggingBehaviour.swift:107-116 | of two candidates at the same distance the lighter one is never chosen |
| TargetSelection.FirstListedWinsAtEqualForce | bottomsheet-tests/FloatingSheet/Transitioning/FloatingSheetDraggingBehaviour.swift:116-116 | of two candidates with equal force the later listed one is never chosen |
| TransitionEngine.Transition.Position | bottomsheet-tests/FloatingSheet/Transitioning/FloatingSheetTransitionBehaviour.swift:218-222 | the de-drifted position plus the captured offset is the finger's centre |
| TransitionEngine.Transition.ProjectedPosition | bottomsheet-tests/FloatingSheet/Transitioning/FloatingSheetTransitionBehaviour.swift:224-227 | the projected y lies strictly below the de-drifted y for downward velocity, strictly above for upward velocity, and equals it at rest |
| TransitionEngine.Transition.Progress | bottomsheet-tests/FloatingSheet/Transitioning/FloatingSheetTransitionBehaviour.swift:229-233 | the de-drifted y is the initial anchor's y plus progress times the distance between the anchors |
| TransitionEngine.ProgressZeroAtCapture | bottomsheet-tests/FloatingSheet/Transitioning/FloatingSheetTransitionBehaviour.swift:97-98 | with the offset captured from a gesture, that gesture's de-drifted position is the initial anchor and its progress is 0 |
| TransitionEngine.ProgressOneAtFinalAnchor | bottomsheet-tests/FloatingSheet/Transitioning/FloatingSheetTransitionBehaviour.swift:229-233 | progress is 1 exactly when the de-drifted y equals the final anchor's y |
| TransitionEngine.ProgressUnclamped | bottomsheet-tests/FloatingSheet/Transitioning/FloatingSheetTransitionBehaviour.swift:229-233 | progress is not clamped: every real value is reached by some gesture |
| TransitionEngine.AfterBegan | bottomsheet-tests/FloatingSheet/Transitioning/FloatingSheetTransitionBehaviour.swift:88-114 | with nothing held, a transition starts exactly when there is a current state and a directional neighbour; it goes from the current state to that neighbour, paused at fraction 0 with progress 0. With one held, only the offset changes and the animator is paused again. The result always has distinct anchor y |
| TransitionEngine.AfterChanged | bottomsheet-tests/FloatingSheet/Transitioning/FloatingSheetTransitionBehaviour.swift:116-120 | only the animator's fraction moves, and it becomes the gesture's progress; it is 0 exactly at the initial anchor's y and 1 exactly at the final anchor's y |
| TransitionEngine.ShouldReverse | bottomsheet-tests/FloatingSheet/Transitioning/FloatingSheetTransitionBehaviour.swift:125-132 | with the at-rest projection corrected: the release reverses exactly when cancelled, or when the first nearest state to the projected stop y is the initial state |
| TransitionEngine.ShouldReverseAsWritten | bottomsheet-tests/FloatingSheet/Transitioning/FloatingSheetTransitionBehaviour.swift:125-132 | with the projection taken literally: cancelled always reverses; in motion it agrees with the corrected decision; at rest it reverses exactly when the catalog's first state is the initial one |
| TransitionEngine.ReleaseAtRestAsWritten | bottomsheet-tests/FloatingSheet/Transitioning/FloatingSheetTransitionBehaviour.swift:129-131 | a drag from full towards medium released at rest ten points below the full anchor does not reverse as written, though the corrected decision reverses (full is nearest) |
| TransitionEngine.Released | bottomsheet-tests/FloatingSheet/Transitioning/FloatingSheetTransitionBehaviour.swift:122-137 | with a transition held the animator is released running, continuing from its fraction between the same two states, reversed as the release decision says (always when cancelled); with none held nothing is released |
| TransitionEngine.CompletionState | bottomsheet-tests/FloatingSheet/Transitioning/FloatingSheetTransitionBehaviour.swift:46-59 | `.end` makes the next state current, `.start` the initial state, `.current` nothing |
| TransitionEngine.ReleaseSettlesOn | bottomsheet-tests/FloatingSheet/Transitioning/FloatingSheetTransitionBehaviour.swift:122-137 | a released animator that runs out settles on the initial state when reversed and on the final state otherwise; a cancelled drag always settles back on its initial state |
| TransitionEngine.SheetView.SetCurrentState | bottomsheet-tests/FloatingSheet/FloatingSheetView.swift:73-76 | the view records the state it is given; the context is unchanged |
| TransitionEngine.TransitionBehaviour.constructor | bottomsheet-tests/FloatingSheet/Transitioning/FloatingSheetTransitionBehaviour.swift:11-19 | a new engine has an empty catalog and holds no transition |
| TransitionEngine.TransitionBehaviour.IsTransitioning | bottomsheet-tests/FloatingSheet/Transitioning/FloatingSheetScrollingBehaviour.swift:82-84 | the engine is transitioning exactly when it holds a transition |
| TransitionEngine.TransitionBehaviour.HaveTransition | bottomsheet-tests/FloatingSheet/Transitioning/FloatingSheetScrollingBehaviour.swift:86-86 | the engine has a transition for the gesture exactly when a *began* with nothing held would start one |
| TransitionEngine.TransitionBehaviour.SetStates | bottomsheet-tests/FloatingSheet/Transitioning/FloatingSheetTransitionBehaviour.swift:17-17 | replacing the catalog keeps the held transition |
| TransitionEngine.TransitionBehaviour.DidPan | bottomsheet-tests/FloatingSheet/Transitioning/FloatingSheetTransitionBehaviour.swift:68-86 | *began* performs `AfterBegan`, *changed* `AfterChanged`; *ended* releases without cancelling, *cancelled* and *failed* with cancelling, and all three drop the transition; *possible* changes nothing |
| TransitionEngine.TransitionBehaviour.StartTransition | bottomsheet-tests/FloatingSheet/Transitioning/FloatingSheetTransitionBehaviour.swift:88-114 | the held transition becomes `AfterBegan` of the old one |
| TransitionEngine.TransitionBehaviour.UpdateTransition | bottomsheet-tests/FloatingSheet/Transitioning/FloatingSheetTransitionBehaviour.swift:116-120 | the held transition becomes `AfterChanged` of the old one |
| TransitionEngine.TransitionBehaviour.FinishTransition | bottomsheet-tests/FloatingSheet/Transitioning/FloatingSheetTransitionBehaviour.swift:122-137 | the animator handed back is `Released` of the held transition (with the at-rest projection corrected), and no transition is held afterwards |
| TransitionEngine.TransitionBehaviour.StartDirectTransition | bottomsheet-tests/FloatingSheet/Transitioning/FloatingSheetTransitionBehaviour.swift:22-29 | the held transition's animator is stopped (the transition stays held) and a new animator between the two given states runs from fraction 0 |
| TransitionEngine.TransitionBehaviour.AnimationDidComplete | bottomsheet-tests/FloatingSheet/Transitioning/FloatingSheetTransitionBehaviour.swift:46-59 | completion at `.end` makes the next state current, at `.start` the initial one, at `.current` leaves the view as it was |
| DraggingDraft.DraftTransition.Progress | bottomsheet-tests/FloatingSheet/Transitioning/FloatingSheetDraggingBehaviour.swift:145-149 | progress is defined exactly when the anchors differ in y, and then the pointer's travel along y since the first gesture is progress times the distance between the anchors |
| DraggingDraft.DraftProgressAtStart | bottomsheet-tests/FloatingSheet/Transitioning/FloatingSheetDraggingBehaviour.swift:145-149 | progress is defined exactly when the anchors differ in y, and is 0 for the gesture the drag began with |
| DraggingDraft.DraftProgressAfterFullMove | bottomsheet-tests/FloatingSheet/Transitioning/FloatingSheetDraggingBehaviour.swift:145-149 | progress is 1 once the pointer has moved by `finalPosition.y - initialPosition.y` |
| DraggingDraft.DraftProgressIsEngineProgress | bottomsheet-tests/FloatingSheet/Transitioning/FloatingSheetDraggingBehaviour.swift:145-149 | the draft's progress equals the engine's progress with the offset taken at the first gesture |
| DraggingDraft.DraftFractionMeaning | bottomsheet-tests/FloatingSheet/Transitioning/FloatingSheetDraggingBehaviour.swift:145-149 | progress is 0 exactly when the pointer is level with where it began, and 1 exactly when it has travelled the anchor distance |
| DraggingDraft.DraftBegan | bottomsheet-tests/FloatingSheet/Transitioning/FloatingSheetDraggingBehaviour.swift:59-79 | a held transition is kept as it is; otherwise one starts exactly when there is a current state and another state in the catalog; its target is the strongest gravitation with the current state excluded, its animator runs forward from fraction 0, and it records the first gesture and both anchors |
| DraggingDraft.DraftChanged | bottomsheet-tests/FloatingSheet/Transitioning/FloatingSheetDraggingBehaviour.swift:81-86 | only the animator's fraction moves, and it becomes the pointer's progress: 0 exactly at the start gesture's y and 1 exactly after the anchor distance; between level anchors the transition is kept as it was |
| DraggingDraft.DraggingBehaviour.constructor | bottomsheet-tests/FloatingSheet/Transitioning/FloatingSheetDraggingBehaviour.swift:23-30 | the handler keeps the view and the catalog and holds no transition |
| DraggingDraft.DraggingBehaviour.DidPan | bottomsheet-tests/FloatingSheet/Transitioning/FloatingSheetDraggingBehaviour.swift:39-57 | *began* performs `DraftBegan` and makes a newly started transition's target current, leaving the view alone otherwise; *changed* performs `DraftChanged`; *ended*, *cancelled* and *failed* all make the held target current (with none held the view is unchanged) and drop the transition |
| DraggingDraft.DraggingBehaviour.StartTransition | bottomsheet-tests/FloatingSheet/Transitioning/FloatingSheetDraggingBehaviour.swift:59-79 | the held transition becomes `DraftBegan` of the old one; a newly started transition's target becomes the view's current state, otherwise the view is unchanged |
| DraggingDraft.DraggingBehaviour.UpdateTransition | bottomsheet-tests/FloatingSheet/Transitioning/FloatingSheetDraggingBehaviour.swift:81-86 | the held transition becomes `DraftChanged` of the old one |
| DraggingDraft.DraggingBehaviour.FinishTransition | bottomsheet-tests/FloatingSheet/Transitioning/FloatingSheetDraggingBehaviour.swift:88-96 | the held transition's target becomes current and no transition is held afterwards; with none held nothing changes |
| ScrollArbitration.ScrollingBehaviour.constructor | bottomsheet-tests/FloatingSheet/Transitioning/FloatingSheetScrollingBehaviour.swift:10-20 | a new behaviour is not transitioning and has no recorded gesture |
| ScrollArbitration.ScrollingBehaviour.ShouldTransitionInsteadOfScrolling | bottomsheet-tests/FloatingSheet/Transitioning/FloatingSheetScrollingBehaviour.swift:79-87 | without an engine the drag is never ceded; with one, it is ceded exactly when the forwarded *began* leaves the engine holding a transition (one is held, or one starts in the gesture's direction) |
| ScrollArbitration.ScrollingBehaviour.WillBeginDragging | bottomsheet-tests/FloatingSheet/Transitioning/FloatingSheetScrollingBehaviour.swift:40-54 | the engine's catalog is never touched; without a view or an engine nothing changes; otherwise `isTransitioning` becomes the arbitration decision and *began* is forwarded exactly when it is true, after which the engine holds a transition |
| ScrollArbitration.ScrollingBehaviour.DidScroll | bottomsheet-tests/FloatingSheet/Transitioning/FloatingSheetScrollingBehaviour.swift:56-69 | the engine's catalog is never touched; when not transitioning nothing changes; otherwise *changed* is forwarded, the content offset is pinned to (0, -top inset) and the gesture is recorded |
| ScrollArbitration.ScrollingBehaviour.DidEndDragging | bottomsheet-tests/FloatingSheet/Transitioning/FloatingSheetScrollingBehaviour.swift:71-77 | the engine's catalog is never touched; *ended* is forwarded with the recorded gesture only when there is one, the record is cleared, and `isTransitioning` is always false afterwards |

## Left out

- Rendering: `FloatingSheetUpdater`, layers, shadows and the animation
  block's `updateUI(to:)`. The view only records its current state
  (`SheetView.SetCurrentState`).
- Animator timing: durations, spring parameters and curves. An animator is
  a record (states, running/paused/stopped, fraction, reversed). The
  driver that runs a released animator is outside the model. Its
  completion is an explicit call (`AnimationDidComplete`), and
  `NaturalEnd` states where an animator left to finish reports it stopped.
- UIKit clamps `fractionComplete` to [0, 1] when it is set. The model keeps
  the unclamped progress the engine computes.
- View controllers, presentation, `InstantPanGestureRecognizer`,
  `setFloatingScrollView` and the multi-delegate. These are platform wiring.
  Each callback takes the pan gesture as a parameter instead of reading it
  from the view.
- `FloatingSheetMask.aroundView`. It converts view coordinates, which is a
  platform call. The content bounds are an input of the context.
- Colours carry RGBA components that the model never reads. Only `.clear`,
  the default, is named.
- `sqrt`: the gravitation works with the squared distance, which is what
  the force formula uses.
- IEEE arithmetic other than the NaN of the zero-velocity projection.
  Infinities and rounding are not modelled.
- Debug printing.
- TransitionEngine.TransitionBehaviour.StartTransition: the weak `view` is
  always present. The source's `.zero` anchor for a missing view is not
  modelled; the engine's view is a non-null constant.
- DraggingDraft.DraggingBehaviour.StartTransition: the weak `sheetView` and
  its context are always present, so the draft's "no view" early returns
  are not modelled.
- ScrollArbitration.ScrollingBehaviour.DidEndDragging: a drag that was
  ceded but produced no scroll sample forwards no *ended*. The engine then
  keeps its paused transition until a later drag releases it. This follows
  the code; the model records it and proves nothing about it.
- DraggingDraft.DraftChanged: when the two anchors are level the source
  divides by zero (NaN or an infinite fraction). The model leaves the
  fraction unchanged in that case.
- TransitionEngine.TransitionBehaviour.FinishTransition (and
  TransitionEngine.Released): the release decision uses the corrected
  projection, in which a finger at rest stops where it is. This differs
  from the code when `velocity.y == 0`: there the code's projection is NaN
  and its decision is the catalog's first state (`ShouldReverseAsWritten`,
  and the finding below).
- TransitionEngine.Transition.Progress requires distinct anchor y. Every
  transition the engine builds satisfies this (`NextExpectedStateMoves`),
  so the source's division by zero cannot arise there.

## Findings

| source | as written | input that shows it | evidently intended | confidence | as-written member | corrected member |
|---|---|---|---|---|---|---|
| bottomsheet-tests/FloatingSheet/Transitioning/Gesture.swift:17-24 | with zero vertical velocity the divisor `-900 · sign(0)` is 0, so the projected y is 0/0 = NaN; `min(by:)` then never replaces its first element, so the release treats the catalog's first state as nearest | catalog [minimal (y 500), medium (y 300), full (y 0)] on a 400×800 screen; a drag from full towards medium released at rest with de-drifted y 10 | a finger at rest stops where it is, so the release should settle on the nearest state (full, 10 points away) instead of running forward to medium | not executed | TransitionEngine.ReleaseAtRestAsWritten | TransitionEngine.ShouldReverse |
