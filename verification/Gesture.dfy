/**
 * `Gesture`: a pointer sample (position and velocity, both in the sheet's
 * coordinate space) and its projected stop point, where the pointer would
 * come to rest if it kept decelerating at a constant rate along each axis.
 */
module Gestures {
  import opened Geometry

  datatype Gesture = Gesture(center: Point, velocity: Point)

  /** The magnitude of the deceleration the projection assumes, in points per second squared. */
  const Deceleration: real := 900.0

  /** `sign(_:)` from simd: -1, 0 or 1. */
  function Sign(v: real): (s: real)
    ensures v > 0.0 ==> s == 1.0
    ensures v < 0.0 ==> s == -1.0
    ensures v == 0.0 ==> s == 0.0
  {
    if v > 0.0 then 1.0 else if v < 0.0 then -1.0 else 0.0
  }

  /**
   * One axis of `projectedStopPoint()` as the source computes it:
   * `c - 0.5 * v * v / a` with `a = -900 * sign(v)`. For `v == 0` the
   * divisor is zero and the result is 0/0, which is NaN for `CGFloat`.
   */
  function ProjectAxisAsWritten(c: real, v: real): (r: Num)
    ensures r.NaN? <==> v == 0.0
    ensures v != 0.0 ==> r == Finite(ProjectAxis(c, v))
  {
    var a := -Deceleration * Sign(v);
    if a == 0.0 then NaN else Finite(c - 0.5 * v * v / a)
  }

  datatype NumPoint = NumPoint(x: Num, y: Num)

  /** `projectedStopPoint()` as the source computes it. */
  function ProjectedStopPointAsWritten(g: Gesture): (p: NumPoint)
    ensures p.x.NaN? <==> g.velocity.x == 0.0
    ensures p.y.NaN? <==> g.velocity.y == 0.0
    ensures g.velocity.x != 0.0 ==> p.x == Finite(ProjectedStopPoint(g).x)
    ensures g.velocity.y != 0.0 ==> p.y == Finite(ProjectedStopPoint(g).y)
  {
    NumPoint(ProjectAxisAsWritten(g.center.x, g.velocity.x),
             ProjectAxisAsWritten(g.center.y, g.velocity.y))
  }

  /**
   * One axis of the stop point under constant deceleration, defined at rest
   * too: a pointer that does not move stops where it is.
   */
  function ProjectAxis(c: real, v: real): (r: real)
    ensures r == c + v * Abs(v) / (2.0 * Deceleration)
    ensures v > 0.0 ==> r > c
    ensures v < 0.0 ==> r < c
    ensures v == 0.0 ==> r == c
  {
    if v == 0.0 then c
    else
      ProjectAxisClosedForm(c, v);
      c - 0.5 * v * v / (-Deceleration * Sign(v))
  }

  lemma ProjectAxisClosedForm(c: real, v: real)
    requires v != 0.0
    ensures c - 0.5 * v * v / (-Deceleration * Sign(v)) == c + v * Abs(v) / (2.0 * Deceleration)
    ensures v > 0.0 ==> c + v * Abs(v) / (2.0 * Deceleration) > c
    ensures v < 0.0 ==> c + v * Abs(v) / (2.0 * Deceleration) < c
  {
    if v > 0.0 {
      assert v * Abs(v) == v * v;
      assert v * v > 0.0;
    } else {
      assert v * Abs(v) == -(v * v);
      assert v * v == (-v) * (-v);
      assert (-v) * (-v) > 0.0;
    }
  }

  /** The projected stop point, each axis on its own. */
  function ProjectedStopPoint(g: Gesture): (p: Point)
    ensures p.x == g.center.x + g.velocity.x * Abs(g.velocity.x) / (2.0 * Deceleration)
    ensures p.y == g.center.y + g.velocity.y * Abs(g.velocity.y) / (2.0 * Deceleration)
  {
    Point(ProjectAxis(g.center.x, g.velocity.x), ProjectAxis(g.center.y, g.velocity.y))
  }

  /** The projected y depends only on the position and velocity along y. */
  lemma ProjectedAxesIndependent(g1: Gesture, g2: Gesture)
    requires g1.center.y == g2.center.y && g1.velocity.y == g2.velocity.y
    ensures ProjectedStopPoint(g1).y == ProjectedStopPoint(g2).y
    ensures ProjectedStopPointAsWritten(g1).y == ProjectedStopPointAsWritten(g2).y
  {
  }
}
