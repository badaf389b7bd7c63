/**
 * Picking a state from the catalog. Three searches, all over the catalog in
 * its listed order, each answering with an index into the catalog:
 *  - the next state in the direction of a drag (`nextExpectedState`),
 *  - the state whose anchor is vertically nearest to a point (`closestState(to:)`),
 *  - the state that attracts a point most strongly (`closestState(for:except:)`
 *    of the dragging behaviour), with the force `gravity / (d * d + 1)`.
 * A state's anchor is the origin of its resolved frame.
 */
module TargetSelection {
  import opened Optional
  import opened Geometry
  import opened SheetContext
  import opened SheetPosition
  import opened SheetState
  import opened Gestures

  function AnchorY(s: SheetState, ctx: Context): real {
    Anchor(s, ctx).y
  }

  // ----- the next state in the direction of the drag -----

  /** Catalog entry `k` is another state whose anchor lies below the current one (greater y). */
  predicate Below(states: seq<SheetState>, ctx: Context, current: SheetState, k: nat)
    requires k < |states|
  {
    states[k].id != current.id && AnchorY(states[k], ctx) > AnchorY(current, ctx)
  }

  /** Catalog entry `k` is another state whose anchor lies above the current one (lesser y). */
  predicate Above(states: seq<SheetState>, ctx: Context, current: SheetState, k: nat)
    requires k < |states|
  {
    states[k].id != current.id && AnchorY(states[k], ctx) < AnchorY(current, ctx)
  }

  /**
   * `k` is the nearest state below: no state below is higher, and every
   * state below listed before `k` is strictly lower.
   */
  ghost predicate IsNearestBelow(states: seq<SheetState>, ctx: Context, current: SheetState, k: nat) {
    && k < |states|
    && Below(states, ctx, current, k)
    && (forall j :: 0 <= j < |states| && Below(states, ctx, current, j) ==>
          AnchorY(states[k], ctx) <= AnchorY(states[j], ctx))
    && (forall j :: 0 <= j < k && Below(states, ctx, current, j) ==>
          AnchorY(states[k], ctx) < AnchorY(states[j], ctx))
  }

  /**
   * `k` is the nearest state above: no state above is lower, and every
   * state above listed after `k` is strictly higher.
   */
  ghost predicate IsNearestAbove(states: seq<SheetState>, ctx: Context, current: SheetState, k: nat) {
    && k < |states|
    && Above(states, ctx, current, k)
    && (forall j :: 0 <= j < |states| && Above(states, ctx, current, j) ==>
          AnchorY(states[j], ctx) <= AnchorY(states[k], ctx))
    && (forall j :: k < j < |states| && Above(states, ctx, current, j) ==>
          AnchorY(states[j], ctx) < AnchorY(states[k], ctx))
  }

  /**
   * Scans `states[i..]` for the nearest state below, starting from the best
   * one found so far. An equal anchor does not replace the best one, so the
   * first listed of equals is kept, as the first element of a stably sorted list.
   */
  function NearestBelowFrom(states: seq<SheetState>, ctx: Context, current: SheetState,
                            i: nat, best: Option<nat>): (r: Option<nat>)
    requires i <= |states|
    requires best.Some? ==> best.value < i && Below(states, ctx, current, best.value)
    decreases |states| - i
    ensures r.Some? ==> r.value < |states| && Below(states, ctx, current, r.value)
    ensures r.Some? ==> r == best || i <= r.value
    ensures r.None? <==> best.None? && forall k :: i <= k < |states| ==> !Below(states, ctx, current, k)
    ensures r.Some? ==> forall k :: i <= k < |states| && Below(states, ctx, current, k) ==>
              AnchorY(states[r.value], ctx) <= AnchorY(states[k], ctx)
    ensures r.Some? ==> forall k :: i <= k < r.value && Below(states, ctx, current, k) ==>
              AnchorY(states[r.value], ctx) < AnchorY(states[k], ctx)
    ensures r.Some? && best.Some? ==> AnchorY(states[r.value], ctx) <= AnchorY(states[best.value], ctx)
    ensures r.Some? && best.Some? && r != best ==>
              AnchorY(states[r.value], ctx) < AnchorY(states[best.value], ctx)
  {
    if i == |states| then best
    else
      var next :=
        if Below(states, ctx, current, i)
           && (best.None? || AnchorY(states[i], ctx) < AnchorY(states[best.value], ctx))
        then Some(i) else best;
      NearestBelowFrom(states, ctx, current, i + 1, next)
  }

  /**
   * Scans `states[i..]` for the nearest state above. An equal anchor replaces
   * the best one, so the last listed of equals is kept, as the first element
   * of a stably sorted list read backwards.
   */
  function NearestAboveFrom(states: seq<SheetState>, ctx: Context, current: SheetState,
                            i: nat, best: Option<nat>): (r: Option<nat>)
    requires i <= |states|
    requires best.Some? ==> best.value < i && Above(states, ctx, current, best.value)
    decreases |states| - i
    ensures r.Some? ==> r.value < |states| && Above(states, ctx, current, r.value)
    ensures r.Some? ==> r == best || i <= r.value
    ensures r.None? <==> best.None? && forall k :: i <= k < |states| ==> !Above(states, ctx, current, k)
    ensures r.Some? ==> forall k :: i <= k < |states| && Above(states, ctx, current, k) ==>
              AnchorY(states[k], ctx) <= AnchorY(states[r.value], ctx)
    ensures r.Some? ==> forall k :: r.value < k < |states| && i <= k && Above(states, ctx, current, k) ==>
              AnchorY(states[k], ctx) < AnchorY(states[r.value], ctx)
    ensures r.Some? && best.Some? ==> AnchorY(states[best.value], ctx) <= AnchorY(states[r.value], ctx)
  {
    if i == |states| then best
    else
      var next :=
        if Above(states, ctx, current, i)
           && (best.None? || AnchorY(states[best.value], ctx) <= AnchorY(states[i], ctx))
        then Some(i) else best;
      NearestAboveFrom(states, ctx, current, i + 1, next)
  }

  /**
   * `nextExpectedState(from:for:)`: the other states sorted by anchor y; for a
   * downward velocity (positive y) the first one below the current state,
   * otherwise (upward or zero velocity) the last one above it.
   */
  function NextExpectedState(states: seq<SheetState>, ctx: Context, current: SheetState,
                             g: Gesture): (r: Option<nat>)
    ensures r.Some? ==> r.value < |states| && states[r.value].id != current.id
    ensures g.velocity.y > 0.0 ==>
              (r.Some? ==> IsNearestBelow(states, ctx, current, r.value))
              && (r.None? <==> forall k :: 0 <= k < |states| ==> !Below(states, ctx, current, k))
    ensures g.velocity.y <= 0.0 ==>
              (r.Some? ==> IsNearestAbove(states, ctx, current, r.value))
              && (r.None? <==> forall k :: 0 <= k < |states| ==> !Above(states, ctx, current, k))
  {
    if g.velocity.y > 0.0 then NearestBelowFrom(states, ctx, current, 0, None)
    else NearestAboveFrom(states, ctx, current, 0, None)
  }

  /** The next state's anchor is never level with the current one's, so a transition to it has a non-degenerate axis. */
  lemma NextExpectedStateMoves(states: seq<SheetState>, ctx: Context, current: SheetState, g: Gesture)
    requires NextExpectedState(states, ctx, current, g).Some?
    ensures AnchorY(states[NextExpectedState(states, ctx, current, g).value], ctx) != AnchorY(current, ctx)
    ensures g.velocity.y > 0.0 <==>
      AnchorY(states[NextExpectedState(states, ctx, current, g).value], ctx) > AnchorY(current, ctx)
  {
  }

  // ----- the state vertically nearest to a point -----

  /** `abs(anchor.y - y)` for a query that may be NaN. */
  function YDistance(s: SheetState, ctx: Context, q: Num): Num {
    match q
    case NaN => NaN
    case Finite(y) => Finite(Abs(AnchorY(s, ctx) - y))
  }

  function Dist(s: SheetState, ctx: Context, y: real): real {
    Abs(AnchorY(s, ctx) - y)
  }

  /** `k` is the first of the states vertically nearest to `y`. */
  ghost predicate IsFirstNearest(states: seq<SheetState>, ctx: Context, y: real, k: nat) {
    && k < |states|
    && (forall j :: 0 <= j < |states| ==> Dist(states[k], ctx, y) <= Dist(states[j], ctx, y))
    && (forall j :: 0 <= j < k ==> Dist(states[k], ctx, y) < Dist(states[j], ctx, y))
  }

  /**
   * `min(by:)` over `states[i..]` starting from `best`: an entry replaces the
   * best one only when it compares strictly less, so the first of equal
   * minima is kept; a NaN distance never compares less.
   */
  function NearestFrom(states: seq<SheetState>, ctx: Context, q: Num, i: nat, best: nat): (r: nat)
    requires best < i <= |states|
    decreases |states| - i
    ensures r < |states| && (r == best || i <= r)
    ensures q.NaN? ==> r == best
    ensures q.Finite? ==>
      && Dist(states[r], ctx, q.value) <= Dist(states[best], ctx, q.value)
      && (r != best ==> Dist(states[r], ctx, q.value) < Dist(states[best], ctx, q.value))
      && (forall k :: i <= k < |states| ==> Dist(states[r], ctx, q.value) <= Dist(states[k], ctx, q.value))
      && (forall k :: i <= k < r ==> Dist(states[r], ctx, q.value) < Dist(states[k], ctx, q.value))
  {
    if i == |states| then best
    else
      var next := if Less(YDistance(states[i], ctx, q), YDistance(states[best], ctx, q)) then i else best;
      NearestFrom(states, ctx, q, i + 1, next)
  }

  /**
   * `closestState(to:)`: the first listed state whose anchor is vertically
   * nearest to the query; none only for an empty catalog. A NaN query makes
   * every comparison false, so the first state of the catalog is returned.
   */
  function ClosestState(states: seq<SheetState>, ctx: Context, q: Num): (r: Option<nat>)
    ensures r.None? <==> |states| == 0
    ensures r.Some? && q.NaN? ==> r.value == 0
    ensures r.Some? && q.Finite? ==> IsFirstNearest(states, ctx, q.value, r.value)
  {
    if |states| == 0 then None else Some(NearestFrom(states, ctx, q, 1, 0))
  }

  /** There is only one first nearest state. */
  lemma FirstNearestUnique(states: seq<SheetState>, ctx: Context, y: real, k1: nat, k2: nat)
    requires IsFirstNearest(states, ctx, y, k1) && IsFirstNearest(states, ctx, y, k2)
    ensures k1 == k2
  {
    var d1, d2 := Dist(states[k1], ctx, y), Dist(states[k2], ctx, y);
    assert d1 <= d2 && d2 <= d1;
  }

  // ----- gravitation -----

  /** The attraction `gravity / (d² + 1)` at squared distance `d2`. */
  function GravityForce(gravity: real, d2: real): real
    requires d2 >= 0.0
  {
    gravity / (d2 + 1.0)
  }

  /** The force with which state `s` attracts point `p`. */
  function Force(s: SheetState, ctx: Context, p: Point): real {
    GravityForce(s.gravityCoefficient, DistanceSquared(p, Anchor(s, ctx)))
  }

  /** A positive gravity gives a positive force that never exceeds the gravity itself. */
  lemma ForceBounds(gravity: real, d2: real)
    requires gravity > 0.0 && d2 >= 0.0
    ensures 0.0 < GravityForce(gravity, d2) <= gravity
  {
    var f := GravityForce(gravity, d2);
    assert f * (d2 + 1.0) == gravity;
  }

  /** For a positive gravity the force strictly falls as the distance grows. */
  lemma ForceDecreasing(gravity: real, d1: real, d2: real)
    requires gravity > 0.0 && 0.0 <= d1 < d2
    ensures GravityForce(gravity, d1) > GravityForce(gravity, d2)
  {
    var f1 := GravityForce(gravity, d1);
    var f2 := GravityForce(gravity, d2);
    ForceBounds(gravity, d2);
    assert f1 * (d1 + 1.0) == gravity;
    assert f2 * (d2 + 1.0) == gravity;
    assert f2 * (d1 + 1.0) < f2 * (d2 + 1.0);
  }

  /** At one distance the heavier state attracts more strongly. */
  lemma ForceIncreasingInGravity(g1: real, g2: real, d2: real)
    requires g1 < g2 && d2 >= 0.0
    ensures GravityForce(g1, d2) < GravityForce(g2, d2)
  {
    var n := d2 + 1.0;
    assert GravityForce(g2, d2) - GravityForce(g1, d2) == (g2 - g1) / n;
  }

  /** Catalog entry `k` survives the filter `$0.id != excludingState?.id`. */
  predicate Eligible(states: seq<SheetState>, except: Option<string>, k: nat)
    requires k < |states|
  {
    except.None? || states[k].id != except.value
  }

  /**
   * `k` is the strongest eligible state: no eligible state attracts `p`
   * more, and every eligible state listed before `k` attracts it strictly less.
   */
  ghost predicate IsStrongest(states: seq<SheetState>, ctx: Context, p: Point, except: Option<string>, k: nat) {
    && k < |states|
    && Eligible(states, except, k)
    && (forall j :: 0 <= j < |states| && Eligible(states, except, j) ==>
          Force(states[j], ctx, p) <= Force(states[k], ctx, p))
    && (forall j :: 0 <= j < k && Eligible(states, except, j) ==>
          Force(states[j], ctx, p) < Force(states[k], ctx, p))
  }

  /**
   * The filter, map and `max(by:)` of the gravitation search fused into one
   * scan of `states[i..]`: an eligible entry replaces the best one only when
   * the best one's force is strictly smaller, so the first of equal maxima is kept.
   */
  function StrongestFrom(states: seq<SheetState>, ctx: Context, p: Point, except: Option<string>,
                         i: nat, best: Option<nat>): (r: Option<nat>)
    requires i <= |states|
    requires best.Some? ==> best.value < i && Eligible(states, except, best.value)
    decreases |states| - i
    ensures r.Some? ==> r.value < |states| && Eligible(states, except, r.value)
    ensures r.Some? ==> r == best || i <= r.value
    ensures r.None? <==> best.None? && forall k :: i <= k < |states| ==> !Eligible(states, except, k)
    ensures r.Some? ==> forall k :: i <= k < |states| && Eligible(states, except, k) ==>
              Force(states[k], ctx, p) <= Force(states[r.value], ctx, p)
    ensures r.Some? ==> forall k :: i <= k < r.value && Eligible(states, except, k) ==>
              Force(states[k], ctx, p) < Force(states[r.value], ctx, p)
    ensures r.Some? && best.Some? ==> Force(states[best.value], ctx, p) <= Force(states[r.value], ctx, p)
    ensures r.Some? && best.Some? && r != best ==>
              Force(states[best.value], ctx, p) < Force(states[r.value], ctx, p)
  {
    if i == |states| then best
    else
      var next :=
        if Eligible(states, except, i)
           && (best.None? || Force(states[best.value], ctx, p) < Force(states[i], ctx, p))
        then Some(i) else best;
      StrongestFrom(states, ctx, p, except, i + 1, next)
  }

  /**
   * `closestState(for:except:)`: the eligible state with the greatest force
   * on the point, the first listed among equals; none exactly when every
   * state is excluded.
   */
  function ClosestByGravity(states: seq<SheetState>, ctx: Context, p: Point, except: Option<string>): (r: Option<nat>)
    ensures r.Some? ==> IsStrongest(states, ctx, p, except, r.value)
    ensures r.Some? && except.Some? ==> states[r.value].id != except.value
    ensures r.None? <==> forall k :: 0 <= k < |states| ==> !Eligible(states, except, k)
  {
    StrongestFrom(states, ctx, p, except, 0, None)
  }

  /** Of two eligible states at the same distance, the lighter one is never chosen. */
  lemma HeavierWinsAtEqualDistance(states: seq<SheetState>, ctx: Context, p: Point,
                                   except: Option<string>, heavy: nat, light: nat)
    requires heavy < |states| && light < |states|
    requires Eligible(states, except, heavy) && Eligible(states, except, light)
    requires DistanceSquared(p, Anchor(states[heavy], ctx)) == DistanceSquared(p, Anchor(states[light], ctx))
    requires states[light].gravityCoefficient < states[heavy].gravityCoefficient
    ensures ClosestByGravity(states, ctx, p, except).Some?
    ensures ClosestByGravity(states, ctx, p, except).value != light
  {
    ForceIncreasingInGravity(states[light].gravityCoefficient, states[heavy].gravityCoefficient,
                             DistanceSquared(p, Anchor(states[heavy], ctx)));
  }

  /** Of two eligible states with the same force, the later listed one is never chosen. */
  lemma FirstListedWinsAtEqualForce(states: seq<SheetState>, ctx: Context, p: Point,
                                    except: Option<string>, first: nat, later: nat)
    requires first < later < |states|
    requires Eligible(states, except, first) && Eligible(states, except, later)
    requires Force(states[first], ctx, p) == Force(states[later], ctx, p)
    ensures ClosestByGravity(states, ctx, p, except).Some?
    ensures ClosestByGravity(states, ctx, p, except).value != later
  {
  }

  // ----- a worked catalog -----

  /** A screen 800 points tall, 400 wide. */
  const Screen: Context := Context(Size(400.0, 800.0), Rect(Origin, Size(400.0, 800.0)))

  /** minimal (anchor y 500), medium (anchor y 300), full (anchor y 0). */
  function ThreeStates(): seq<SheetState> {
    [NewState("minimal", AbsoluteBottomHeight(300.0)),
     NewState("medium", AbsoluteBottomHeight(500.0)),
     NewState("full", Full)]
  }

  /** From medium, a downward drag heads for minimal and an upward one for full. */
  lemma DirectionalScenario(down: Gesture, up: Gesture)
    requires down.velocity.y > 0.0 && up.velocity.y < 0.0
    ensures NextExpectedState(ThreeStates(), Screen, ThreeStates()[1], down) == Some(0)
    ensures NextExpectedState(ThreeStates(), Screen, ThreeStates()[1], up) == Some(2)
  {
    var s := ThreeStates();
    assert AnchorY(s[0], Screen) == 500.0;
    assert AnchorY(s[1], Screen) == 300.0;
    assert AnchorY(s[2], Screen) == 0.0;
    var d := NextExpectedState(s, Screen, s[1], down);
    assert Below(s, Screen, s[1], 0);
    assert !Below(s, Screen, s[1], 2);
    assert d.Some? && d.value != 1 && d.value != 2;
    var u := NextExpectedState(s, Screen, s[1], up);
    assert Above(s, Screen, s[1], 2);
    assert !Above(s, Screen, s[1], 0);
    assert u.Some? && u.value != 1 && u.value != 0;
  }
}
