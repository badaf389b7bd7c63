/** Optional values: the model of Swift's `T?`. */
module Optional {
  datatype Option<T> = None | Some(value: T)
}

/**
 * The CoreGraphics value types the sheet works with (`CGPoint`, `CGSize`,
 * `CGRect`, `UIEdgeInsets`) over `real` coordinates, and the point/rect
 * helpers of the geometry bridge: componentwise `+` and `-`, the distance
 * between two points (kept squared, so no square root is needed) and the
 * centre of a rectangle.
 */
module Geometry {

  datatype Point = Point(x: real, y: real)
  datatype Size = Size(width: real, height: real)
  datatype Rect = Rect(origin: Point, size: Size)
  datatype EdgeInsets = EdgeInsets(top: real, left: real, bottom: real, right: real)

  /** `CGPoint.zero` */
  const Origin: Point := Point(0.0, 0.0)

  /** `UIEdgeInsets.zero` */
  const NoInsets: EdgeInsets := EdgeInsets(0.0, 0.0, 0.0, 0.0)

  /**
   * A `CGFloat` that may have left the reals: only NaN is needed here (the
   * result of 0/0). As in IEEE 754, every ordering comparison with NaN is false.
   */
  datatype Num = Finite(value: real) | NaN

  predicate Less(a: Num, b: Num) {
    a.Finite? && b.Finite? && a.value < b.value
  }

  function Abs(r: real): (a: real)
    ensures a >= 0.0 && (a == r || a == -r)
  {
    if r < 0.0 then -r else r
  }

  /** `lhs + rhs` on points */
  function Add(a: Point, b: Point): Point {
    Point(a.x + b.x, a.y + b.y)
  }

  /** `lhs - rhs` on points */
  function Sub(a: Point, b: Point): Point {
    Point(a.x - b.x, a.y - b.y)
  }

  /** The square of `CGPoint.distance(to:)`: `dx * dx + dy * dy`. */
  function DistanceSquared(a: Point, b: Point): (d: real)
    ensures d >= 0.0
  {
    var dx := a.x - b.x;
    var dy := a.y - b.y;
    dx * dx + dy * dy
  }

  /** `CGRect.center()`: origin plus half the size. */
  function Center(r: Rect): Point {
    Point(r.origin.x + 0.5 * r.size.width, r.origin.y + 0.5 * r.size.height)
  }

  /** The corner of a rectangle opposite its origin. */
  function FarCorner(r: Rect): Point {
    Add(r.origin, Point(r.size.width, r.size.height))
  }

  /**
   * `CGRect.inset(by:)` with `UIEdgeInsets`: the origin moves by (left, top),
   * the width shrinks by left + right and the height by top + bottom. The
   * arithmetic is plain; a negative size is kept as it is.
   */
  function InsetBy(r: Rect, i: EdgeInsets): Rect {
    Rect(Point(r.origin.x + i.left, r.origin.y + i.top),
         Size(r.size.width - (i.left + i.right), r.size.height - (i.top + i.bottom)))
  }

  /** Edge insets added side by side. */
  function AddInsets(a: EdgeInsets, b: EdgeInsets): EdgeInsets {
    EdgeInsets(a.top + b.top, a.left + b.left, a.bottom + b.bottom, a.right + b.right)
  }

  // ----- properties of the helpers -----

  /** Subtraction undoes addition. */
  lemma SubAfterAdd(a: Point, b: Point)
    ensures Sub(Add(a, b), b) == a
  {
  }

  /** A point minus itself is the zero point. */
  lemma SubSelf(a: Point)
    ensures Sub(a, a) == Origin
  {
  }

  /** Distance is symmetric and zero from a point to itself. */
  lemma DistanceSquaredSymmetric(a: Point, b: Point)
    ensures DistanceSquared(a, b) == DistanceSquared(b, a)
    ensures DistanceSquared(a, a) == 0.0
  {
  }

  /** The centre is the midpoint of the diagonal from the origin to the far corner. */
  lemma CenterIsMidpoint(r: Rect)
    ensures Sub(Center(r), r.origin) == Sub(FarCorner(r), Center(r))
  {
  }

  /** Zero insets leave a rectangle unchanged. */
  lemma InsetByNothing(r: Rect)
    ensures InsetBy(r, NoInsets) == r
  {
  }

  /** Insetting twice is insetting once by the summed insets. */
  lemma InsetByTwice(r: Rect, a: EdgeInsets, b: EdgeInsets)
    ensures InsetBy(InsetBy(r, a), b) == InsetBy(r, AddInsets(a, b))
  {
  }

  /** Insets move the far corner by (-right, -bottom). */
  lemma InsetMovesFarCorner(r: Rect, i: EdgeInsets)
    ensures FarCorner(InsetBy(r, i)) == Sub(FarCorner(r), Point(i.right, i.bottom))
  {
  }
}
