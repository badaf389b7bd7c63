/**
 * The geometry a sheet state is resolved against (`FloatingSheetContext`):
 * the size available to the sheet and the bounds of the hosted content view.
 * The content view itself is platform state; only its bounds are used here.
 */
module SheetContext {
  import opened Geometry

  datatype Context = Context(availableSize: Size, contentBounds: Rect)
}

/**
 * `FloatingSheetPosition`: a rule that turns a context into the sheet's frame.
 * The source builds these rules as closures; here each builder is a variant
 * and `Frame` evaluates it.
 */
module SheetPosition {
  import opened Geometry
  import opened SheetContext

  datatype PositionRule =
    | Full
    | AbsoluteBottomHeight(height: real)
    | RelativeBottomHeight(fraction: real)
    | InsetPosition(base: PositionRule, insets: EdgeInsets)
    | Custom(frame: Context -> Rect)

  /** The band of the given height whose bottom edge is the bottom of the available area. */
  function BottomBand(ctx: Context, height: real): Rect {
    Rect(Point(0.0, ctx.availableSize.height - height), Size(ctx.availableSize.width, height))
  }

  /**
   * `position.frame(context)`: the three built-in rules span the available
   * width and reach its bottom edge; an inset rule moves the near corner of
   * the wrapped frame in by (left, top) and the far corner in by (right,
   * bottom).
   */
  function Frame(rule: PositionRule, ctx: Context): (r: Rect)
    ensures rule.Full? || rule.AbsoluteBottomHeight? || rule.RelativeBottomHeight? ==>
      && r.origin.x == 0.0
      && r.size.width == ctx.availableSize.width
      && FarCorner(r).y == ctx.availableSize.height
    ensures rule.Full? ==> r.origin.y == 0.0
    ensures rule.AbsoluteBottomHeight? ==> r.size.height == rule.height
    ensures rule.RelativeBottomHeight? ==> r.size.height == ctx.availableSize.height * rule.fraction
    ensures rule.InsetPosition? ==>
      && r.origin == Add(Frame(rule.base, ctx).origin, Point(rule.insets.left, rule.insets.top))
      && FarCorner(r) == Sub(FarCorner(Frame(rule.base, ctx)), Point(rule.insets.right, rule.insets.bottom))
  {
    match rule
    case Full => Rect(Origin, ctx.availableSize)
    case AbsoluteBottomHeight(h) => BottomBand(ctx, h)
    case RelativeBottomHeight(f) => BottomBand(ctx, ctx.availableSize.height * f)
    case InsetPosition(base, i) =>
      InsetMovesFarCorner(Frame(base, ctx), i);
      InsetBy(Frame(base, ctx), i)
    case Custom(f) => f(ctx)
  }

  /** `full()` covers the available area from the top-left corner. */
  lemma FullFrame(ctx: Context)
    ensures Frame(Full, ctx).origin == Origin
    ensures Frame(Full, ctx).size == ctx.availableSize
  {
  }

  /** `absoluteBottomHeight(h)` spans the full width, is `h` tall and ends at the bottom edge. */
  lemma AbsoluteBottomFrame(ctx: Context, h: real)
    ensures Frame(AbsoluteBottomHeight(h), ctx).origin.x == 0.0
    ensures Frame(AbsoluteBottomHeight(h), ctx).size == Size(ctx.availableSize.width, h)
    ensures FarCorner(Frame(AbsoluteBottomHeight(h), ctx)).y == ctx.availableSize.height
  {
  }

  /**
   * `relativeBottomHeight(r)` is `absoluteBottomHeight(r * availableHeight)`,
   * so the relative height 1 gives the same frame as `full()`.
   */
  lemma RelativeBottomFrame(ctx: Context, r: real)
    ensures Frame(RelativeBottomHeight(r), ctx)
         == Frame(AbsoluteBottomHeight(ctx.availableSize.height * r), ctx)
    ensures r == 1.0 ==> Frame(RelativeBottomHeight(r), ctx) == Frame(Full, ctx)
  {
  }

  /** `inseted(i)` insets the frame of the rule it wraps; zero insets change nothing. */
  lemma {:induction false} InsetPositionFrame(rule: PositionRule, ctx: Context, i: EdgeInsets)
    ensures Frame(InsetPosition(rule, i), ctx).origin
         == Add(Frame(rule, ctx).origin, Point(i.left, i.top))
    ensures Frame(InsetPosition(rule, i), ctx).size
         == Size(Frame(rule, ctx).size.width - (i.left + i.right),
                 Frame(rule, ctx).size.height - (i.top + i.bottom))
    ensures Frame(InsetPosition(rule, NoInsets), ctx) == Frame(rule, ctx)
  {
    var r := Frame(rule, ctx);
    assert Frame(InsetPosition(rule, i), ctx) == InsetBy(r, i);
    assert Frame(InsetPosition(rule, NoInsets), ctx) == InsetBy(r, NoInsets);
    InsetByNothing(r);
  }

  /** `custom(f)` hands the context to `f` and returns its frame unchanged. */
  lemma CustomFrame(f: Context -> Rect, ctx: Context)
    ensures Frame(Custom(f), ctx) == f(ctx)
  {
  }
}

/**
 * `FloatingSheetMask`: an optional clipping rectangle computed from the
 * context. No rectangle means the sheet's own bounds are used.
 */
module SheetMask {
  import opened Optional
  import opened Geometry
  import opened SheetContext

  datatype MaskRule =
    | NoMask
    | ContentInsets(insets: EdgeInsets)
    | InsetMask(base: MaskRule, insets: EdgeInsets)

  /**
   * `mask.mask(context)`: a rule yields a rectangle exactly when its
   * innermost rule is not `none()`.
   */
  function MaskFrame(rule: MaskRule, ctx: Context): (r: Option<Rect>)
    ensures r.Some? <==> !Innermost(rule).NoMask?
  {
    match rule
    case NoMask => None
    case ContentInsets(i) => Some(InsetBy(ctx.contentBounds, i))
    case InsetMask(base, i) =>
      match MaskFrame(base, ctx)
      case None => None
      case Some(r) => Some(InsetBy(r, i))
  }

  /** `none()` never yields a rectangle. */
  lemma NoMaskFrame(ctx: Context)
    ensures MaskFrame(NoMask, ctx) == None
  {
  }

  /** `insets(i)` is the content bounds inset by `i`. */
  lemma ContentInsetsFrame(ctx: Context, i: EdgeInsets)
    ensures MaskFrame(ContentInsets(i), ctx) == Some(InsetBy(ctx.contentBounds, i))
  {
  }

  /** `inseted(i)` keeps "no rectangle" and otherwise insets the rectangle by `i`. */
  lemma {:induction false} InsetMaskFrame(rule: MaskRule, ctx: Context, i: EdgeInsets)
    ensures MaskFrame(rule, ctx).None? ==> MaskFrame(InsetMask(rule, i), ctx).None?
    ensures MaskFrame(rule, ctx).Some? ==>
      MaskFrame(InsetMask(rule, i), ctx) == Some(InsetBy(MaskFrame(rule, ctx).value, i))
  {
  }

  /** The rule at the bottom of a chain of `inseted(_:)` wrappers. */
  function Innermost(rule: MaskRule): MaskRule {
    match rule
    case InsetMask(base, _) => Innermost(base)
    case _ => rule
  }
}

/**
 * `FloatingSheetState` and `FloatingSheetAppearance`: a named resting
 * configuration of the sheet. The name is fixed; position, mask and
 * appearance may be replaced. The gravity coefficient weights the state in
 * the gravitation search of the dragging behaviour.
 */
module SheetState {
  import opened Optional
  import opened Geometry
  import opened SheetContext
  import opened SheetPosition
  import opened SheetMask

  /** `UIColor`: `.clear`, the default, or RGBA components the model never reads. */
  datatype Color = Clear | Rgba(red: real, green: real, blue: real, alpha: real)

  datatype Appearance = Appearance(cornerRadius: real, overlayColor: Color)

  /** `FloatingSheetAppearance()` */
  const DefaultAppearance: Appearance := Appearance(0.0, Clear)

  /** The gravity of a state nobody tuned. */
  const DefaultGravity: real := 1.0

  datatype SheetState = SheetState(
    id: string,
    position: PositionRule,
    mask: MaskRule,
    appearance: Appearance,
    gravityCoefficient: real)

  /** `FloatingSheetState(id:position:mask:appearance:)` with its defaults. */
  function NewState(
    id: string,
    position: PositionRule,
    mask: MaskRule := NoMask,
    appearance: Appearance := DefaultAppearance,
    gravity: real := DefaultGravity): (s: SheetState)
    ensures s.id == id && s.position == position
    ensures s.mask == mask && s.appearance == appearance && s.gravityCoefficient == gravity
  {
    SheetState(id, position, mask, appearance, gravity)
  }

  /** A state built with the defaults has no mask rectangle and square corners. */
  lemma DefaultStateLooks(id: string, position: PositionRule, ctx: Context)
    ensures MaskFrame(NewState(id, position).mask, ctx) == None
    ensures NewState(id, position).appearance.cornerRadius == 0.0
    ensures NewState(id, position).appearance.overlayColor == Clear
  {
  }

  /** `state.position = p`: the id and the other attributes stay. */
  function WithPosition(s: SheetState, p: PositionRule): (r: SheetState)
    ensures r.id == s.id && r.position == p
    ensures r.mask == s.mask && r.appearance == s.appearance
    ensures r.gravityCoefficient == s.gravityCoefficient
  {
    s.(position := p)
  }

  /** `state.mask = m`: the id and the other attributes stay. */
  function WithMask(s: SheetState, m: MaskRule): (r: SheetState)
    ensures r.id == s.id && r.mask == m
    ensures r.position == s.position && r.appearance == s.appearance
    ensures r.gravityCoefficient == s.gravityCoefficient
  {
    s.(mask := m)
  }

  /** `state.appearance = a`: the id and the other attributes stay. */
  function WithAppearance(s: SheetState, a: Appearance): (r: SheetState)
    ensures r.id == s.id && r.appearance == a
    ensures r.position == s.position && r.mask == s.mask
    ensures r.gravityCoefficient == s.gravityCoefficient
  {
    s.(appearance := a)
  }

  /**
   * The anchor of a state: the origin of its resolved frame. A `full()`
   * state is anchored at the top-left corner; the two bottom-height rules
   * are anchored at x 0, their height above the bottom edge.
   */
  function Anchor(s: SheetState, ctx: Context): (p: Point)
    ensures s.position.Full? ==> p == Origin
    ensures s.position.AbsoluteBottomHeight? ==>
      p == Point(0.0, ctx.availableSize.height - s.position.height)
    ensures s.position.RelativeBottomHeight? ==>
      p == Point(0.0, ctx.availableSize.height - ctx.availableSize.height * s.position.fraction)
    ensures s.position.InsetPosition? ==>
      p == Add(Frame(s.position.base, ctx).origin, Point(s.position.insets.left, s.position.insets.top))
  {
    Frame(s.position, ctx).origin
  }

  /** The anchor depends on the position rule only: the mask and the appearance do not move it. */
  lemma AnchorIgnoresLooks(s: SheetState, ctx: Context, m: MaskRule, a: Appearance)
    ensures Anchor(WithMask(s, m), ctx) == Anchor(s, ctx)
    ensures Anchor(WithAppearance(s, a), ctx) == Anchor(s, ctx)
  {
  }
}
