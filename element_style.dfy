/**
 * Expression-backed style attribute sets: the attributes a structured style document builds,
 * the forward last-write-wins merge of an attribute sequence into a computed style, and the
 * closed-schema builder that turns a document's property map into attributes.
 */
module ElementStyles {
  import opened Wrappers
  import opened Ui
  import opened Exprs
  import opened Computed
  import F = Fields

  /** One property of a structured style; every value but the background image is evaluated at merge time. */
  datatype ElementStyleAttr =
    | BackgroundImage(image: Option<Handle>)
    | BackgroundColor(e: Expr)
    | BorderColor(e: Expr)
    | Color(e: Expr)
    | ZIndex(e: Expr)
    | Display(e: Expr)
    | Position(e: Expr)
    | Overflow(e: Expr)
    | OverflowX(e: Expr)
    | OverflowY(e: Expr)
    | Direction(e: Expr)
    | Left(e: Expr)
    | Right(e: Expr)
    | Top(e: Expr)
    | Bottom(e: Expr)
    | Width(e: Expr)
    | Height(e: Expr)
    | MinWidth(e: Expr)
    | MinHeight(e: Expr)
    | MaxWidth(e: Expr)
    | MaxHeight(e: Expr)
    | Margin(e: Expr)
    | MarginLeft(e: Expr)
    | MarginRight(e: Expr)
    | MarginTop(e: Expr)
    | MarginBottom(e: Expr)
    | Padding(e: Expr)
    | PaddingLeft(e: Expr)
    | PaddingRight(e: Expr)
    | PaddingTop(e: Expr)
    | PaddingBottom(e: Expr)
    | Border(e: Expr)
    | BorderLeft(e: Expr)
    | BorderRight(e: Expr)
    | BorderTop(e: Expr)
    | BorderBottom(e: Expr)
    | FlexDirection(e: Expr)
    | FlexWrap(e: Expr)
    | FlexGrow(e: Expr)
    | FlexShrink(e: Expr)
    | FlexBasis(e: Expr)
    | RowGap(e: Expr)
    | ColumnGap(e: Expr)
    | Gap(e: Expr)
    | AlignItems(e: Expr)
    | AlignSelf(e: Expr)
    | AlignContent(e: Expr)
    | JustifyItems(e: Expr)
    | JustifySelf(e: Expr)
    | JustifyContent(e: Expr)

  /** A style sheet, an inline style or a nested style: attributes in insertion order. */
  datatype ElementStyle = ElementStyle(attrs: seq<ElementStyleAttr>)

  /**
   * The merge step for one attribute: when its value evaluates, overwrite the field(s) it names;
   * when evaluation fails, leave the computed style as it is. A background image always applies.
   */
  function ApplyAttr(attr: ElementStyleAttr, cs: ComputedStyle, ev: Evaluator): ComputedStyle {
    match attr
    case BackgroundImage(image) => F.WithImage(cs, image)
    case BackgroundColor(e) => if ev.color(e).Some? then F.WithBackgroundColor(cs, ev.color(e).value) else cs
    case BorderColor(e) => if ev.color(e).Some? then F.WithBorderColor(cs, ev.color(e).value) else cs
    case Color(e) => if ev.color(e).Some? then F.WithTextColor(cs, ev.color(e).value) else cs
    case ZIndex(e) => if ev.int32(e).Some? then F.WithZIndex(cs, Some(ev.int32(e).value)) else cs
    case Display(e) => if ev.display(e).Some? then F.WithDisplay(cs, ev.display(e).value) else cs
    case Position(e) => if ev.position(e).Some? then F.WithPositionType(cs, ev.position(e).value) else cs
    case OverflowX(e) => if ev.overflow(e).Some? then F.WithOverflowX(cs, ev.overflow(e).value) else cs
    case OverflowY(e) => if ev.overflow(e).Some? then F.WithOverflowY(cs, ev.overflow(e).value) else cs
    case Overflow(e) =>
      if ev.overflow(e).Some? then F.WithOverflow(cs, Ui.Overflow(ev.overflow(e).value, ev.overflow(e).value)) else cs
    case Direction(e) => if ev.direction(e).Some? then F.WithDirection(cs, ev.direction(e).value) else cs
    case Left(e) => if ev.length(e).Some? then F.WithLeft(cs, ev.length(e).value) else cs
    case Right(e) => if ev.length(e).Some? then F.WithRight(cs, ev.length(e).value) else cs
    case Top(e) => if ev.length(e).Some? then F.WithTop(cs, ev.length(e).value) else cs
    case Bottom(e) => if ev.length(e).Some? then F.WithBottom(cs, ev.length(e).value) else cs
    case Width(e) => if ev.length(e).Some? then F.WithWidth(cs, ev.length(e).value) else cs
    case Height(e) => if ev.length(e).Some? then F.WithHeight(cs, ev.length(e).value) else cs
    case MinWidth(e) => if ev.length(e).Some? then F.WithMinWidth(cs, ev.length(e).value) else cs
    case MinHeight(e) => if ev.length(e).Some? then F.WithMinHeight(cs, ev.length(e).value) else cs
    case MaxWidth(e) => if ev.length(e).Some? then F.WithMaxWidth(cs, ev.length(e).value) else cs
    case MaxHeight(e) => if ev.length(e).Some? then F.WithMaxHeight(cs, ev.length(e).value) else cs
    case Margin(e) => if ev.rect(e).Some? then F.WithMargin(cs, ev.rect(e).value) else cs
    case MarginLeft(e) => if ev.length(e).Some? then F.WithMarginLeft(cs, ev.length(e).value) else cs
    case MarginRight(e) => if ev.length(e).Some? then F.WithMarginRight(cs, ev.length(e).value) else cs
    case MarginTop(e) => if ev.length(e).Some? then F.WithMarginTop(cs, ev.length(e).value) else cs
    case MarginBottom(e) => if ev.length(e).Some? then F.WithMarginBottom(cs, ev.length(e).value) else cs
    case Padding(e) => if ev.rect(e).Some? then F.WithPadding(cs, ev.rect(e).value) else cs
    case PaddingLeft(e) => if ev.length(e).Some? then F.WithPaddingLeft(cs, ev.length(e).value) else cs
    case PaddingRight(e) => if ev.length(e).Some? then F.WithPaddingRight(cs, ev.length(e).value) else cs
    case PaddingTop(e) => if ev.length(e).Some? then F.WithPaddingTop(cs, ev.length(e).value) else cs
    case PaddingBottom(e) => if ev.length(e).Some? then F.WithPaddingBottom(cs, ev.length(e).value) else cs
    case Border(e) => if ev.rect(e).Some? then F.WithBorder(cs, ev.rect(e).value) else cs
    case BorderLeft(e) => if ev.length(e).Some? then F.WithBorderLeft(cs, ev.length(e).value) else cs
    case BorderRight(e) => if ev.length(e).Some? then F.WithBorderRight(cs, ev.length(e).value) else cs
    case BorderTop(e) => if ev.length(e).Some? then F.WithBorderTop(cs, ev.length(e).value) else cs
    case BorderBottom(e) => if ev.length(e).Some? then F.WithBorderBottom(cs, ev.length(e).value) else cs
    case FlexDirection(e) =>
      if ev.flexDirection(e).Some? then F.WithFlexDirection(cs, ev.flexDirection(e).value) else cs
    case FlexWrap(e) => if ev.flexWrap(e).Some? then F.WithFlexWrap(cs, ev.flexWrap(e).value) else cs
    case FlexGrow(e) => if ev.scalar(e).Some? then F.WithFlexGrow(cs, ev.scalar(e).value) else cs
    case FlexShrink(e) => if ev.scalar(e).Some? then F.WithFlexShrink(cs, ev.scalar(e).value) else cs
    case FlexBasis(e) => if ev.length(e).Some? then F.WithFlexBasis(cs, ev.length(e).value) else cs
    case ColumnGap(e) => if ev.length(e).Some? then F.WithColumnGap(cs, ev.length(e).value) else cs
    case RowGap(e) => if ev.length(e).Some? then F.WithRowGap(cs, ev.length(e).value) else cs
    case Gap(e) => if ev.length(e).Some? then F.WithGaps(cs, ev.length(e).value) else cs
    case AlignItems(e) => if ev.alignItems(e).Some? then F.WithAlignItems(cs, ev.alignItems(e).value) else cs
    case AlignSelf(e) => if ev.alignSelf(e).Some? then F.WithAlignSelf(cs, ev.alignSelf(e).value) else cs
    case AlignContent(e) =>
      if ev.alignContent(e).Some? then F.WithAlignContent(cs, ev.alignContent(e).value) else cs
    case JustifyItems(e) =>
      if ev.justifyItems(e).Some? then F.WithJustifyItems(cs, ev.justifyItems(e).value) else cs
    case JustifySelf(e) =>
      if ev.justifySelf(e).Some? then F.WithJustifySelf(cs, ev.justifySelf(e).value) else cs
    case JustifyContent(e) =>
      if ev.justifyContent(e).Some? then F.WithJustifyContent(cs, ev.justifyContent(e).value) else cs
  }


  /** Whether the attribute's value evaluates to its target type; a background image needs no evaluation. */
  predicate Evaluates(attr: ElementStyleAttr, ev: Evaluator) {
    match attr
    case BackgroundImage(_) => true
    case BackgroundColor(e) => ev.color(e).Some?
    case BorderColor(e) => ev.color(e).Some?
    case Color(e) => ev.color(e).Some?
    case ZIndex(e) => ev.int32(e).Some?
    case Display(e) => ev.display(e).Some?
    case Position(e) => ev.position(e).Some?
    case Overflow(e) => ev.overflow(e).Some?
    case OverflowX(e) => ev.overflow(e).Some?
    case OverflowY(e) => ev.overflow(e).Some?
    case Direction(e) => ev.direction(e).Some?
    case Margin(e) => ev.rect(e).Some?
    case Padding(e) => ev.rect(e).Some?
    case Border(e) => ev.rect(e).Some?
    case FlexDirection(e) => ev.flexDirection(e).Some?
    case FlexWrap(e) => ev.flexWrap(e).Some?
    case FlexGrow(e) => ev.scalar(e).Some?
    case FlexShrink(e) => ev.scalar(e).Some?
    case AlignItems(e) => ev.alignItems(e).Some?
    case AlignSelf(e) => ev.alignSelf(e).Some?
    case AlignContent(e) => ev.alignContent(e).Some?
    case JustifyItems(e) => ev.justifyItems(e).Some?
    case JustifySelf(e) => ev.justifySelf(e).Some?
    case JustifyContent(e) => ev.justifyContent(e).Some?
    case Left(e) => ev.length(e).Some?
    case Right(e) => ev.length(e).Some?
    case Top(e) => ev.length(e).Some?
    case Bottom(e) => ev.length(e).Some?
    case Width(e) => ev.length(e).Some?
    case Height(e) => ev.length(e).Some?
    case MinWidth(e) => ev.length(e).Some?
    case MinHeight(e) => ev.length(e).Some?
    case MaxWidth(e) => ev.length(e).Some?
    case MaxHeight(e) => ev.length(e).Some?
    case MarginLeft(e) => ev.length(e).Some?
    case MarginRight(e) => ev.length(e).Some?
    case MarginTop(e) => ev.length(e).Some?
    case MarginBottom(e) => ev.length(e).Some?
    case PaddingLeft(e) => ev.length(e).Some?
    case PaddingRight(e) => ev.length(e).Some?
    case PaddingTop(e) => ev.length(e).Some?
    case PaddingBottom(e) => ev.length(e).Some?
    case BorderLeft(e) => ev.length(e).Some?
    case BorderRight(e) => ev.length(e).Some?
    case BorderTop(e) => ev.length(e).Some?
    case BorderBottom(e) => ev.length(e).Some?
    case FlexBasis(e) => ev.length(e).Some?
    case RowGap(e) => ev.length(e).Some?
    case ColumnGap(e) => ev.length(e).Some?
    case Gap(e) => ev.length(e).Some?
  }


  /** Field `f` is one of the fields of the computed style the attribute is about. */
  predicate Targets(attr: ElementStyleAttr, f: F.Field) {
    match attr
    case BackgroundImage(_) => f == F.Field.Image
    case BackgroundColor(_) => f == F.Field.BackgroundColor
    case BorderColor(_) => f == F.Field.BorderColor
    case Color(_) => f == F.Field.TextColor
    case ZIndex(_) => f == F.Field.ZIndex
    case Display(_) => f == F.Field.Display
    case Position(_) => f == F.Field.PositionType
    case Overflow(_) => f == F.Field.OverflowX || f == F.Field.OverflowY
    case OverflowX(_) => f == F.Field.OverflowX
    case OverflowY(_) => f == F.Field.OverflowY
    case Direction(_) => f == F.Field.Direction
    case Left(_) => f == F.Field.Left
    case Right(_) => f == F.Field.Right
    case Top(_) => f == F.Field.Top
    case Bottom(_) => f == F.Field.Bottom
    case Width(_) => f == F.Field.Width
    case Height(_) => f == F.Field.Height
    case MinWidth(_) => f == F.Field.MinWidth
    case MinHeight(_) => f == F.Field.MinHeight
    case MaxWidth(_) => f == F.Field.MaxWidth
    case MaxHeight(_) => f == F.Field.MaxHeight
    case Margin(_) => f == F.Field.MarginLeft || f == F.Field.MarginRight || f == F.Field.MarginTop || f == F.Field.MarginBottom
    case MarginLeft(_) => f == F.Field.MarginLeft
    case MarginRight(_) => f == F.Field.MarginRight
    case MarginTop(_) => f == F.Field.MarginTop
    case MarginBottom(_) => f == F.Field.MarginBottom
    case Padding(_) => f == F.Field.PaddingLeft || f == F.Field.PaddingRight || f == F.Field.PaddingTop || f == F.Field.PaddingBottom
    case PaddingLeft(_) => f == F.Field.PaddingLeft
    case PaddingRight(_) => f == F.Field.PaddingRight
    case PaddingTop(_) => f == F.Field.PaddingTop
    case PaddingBottom(_) => f == F.Field.PaddingBottom
    case Border(_) => f == F.Field.BorderLeft || f == F.Field.BorderRight || f == F.Field.BorderTop || f == F.Field.BorderBottom
    case BorderLeft(_) => f == F.Field.BorderLeft
    case BorderRight(_) => f == F.Field.BorderRight
    case BorderTop(_) => f == F.Field.BorderTop
    case BorderBottom(_) => f == F.Field.BorderBottom
    case FlexDirection(_) => f == F.Field.FlexDirection
    case FlexWrap(_) => f == F.Field.FlexWrap
    case FlexGrow(_) => f == F.Field.FlexGrow
    case FlexShrink(_) => f == F.Field.FlexShrink
    case FlexBasis(_) => f == F.Field.FlexBasis
    case RowGap(_) => f == F.Field.RowGap
    case ColumnGap(_) => f == F.Field.ColumnGap
    case Gap(_) => f == F.Field.RowGap || f == F.Field.ColumnGap
    case AlignItems(_) => f == F.Field.AlignItems
    case AlignSelf(_) => f == F.Field.AlignSelf
    case AlignContent(_) => f == F.Field.AlignContent
    case JustifyItems(_) => f == F.Field.JustifyItems
    case JustifySelf(_) => f == F.Field.JustifySelf
    case JustifyContent(_) => f == F.Field.JustifyContent
  }

  /** Attribute `attr` overwrites field `f`: it is about `f` and its value evaluates. */
  predicate Writes(attr: ElementStyleAttr, ev: Evaluator, f: F.Field) {
    Evaluates(attr, ev) && Targets(attr, f)
  }

  /** An attribute whose value does not evaluate leaves the whole computed style as it was. */
  lemma FailedAttrIsNoOp(attr: ElementStyleAttr, cs: ComputedStyle, ev: Evaluator)
    requires !Evaluates(attr, ev)
    ensures ApplyAttr(attr, cs, ev) == cs
  {
  }

  /**
   * Nothing else changes: a field the attribute does not write keeps its value. Together with
   * `FailedAttrIsNoOp` this covers every attribute and every field.
   */
  lemma ApplyAttrFrame(attr: ElementStyleAttr, cs: ComputedStyle, ev: Evaluator, f: F.Field)
    requires !Writes(attr, ev, f)
    ensures F.Get(ApplyAttr(attr, cs, ev), f) == F.Get(cs, f)
  {
    if attr.BackgroundImage? || attr.BackgroundColor? {
      FramesOfBackgroundImageToBackgroundColor(attr, cs, ev, f);
    } else if attr.BorderColor? || attr.Color? {
      FramesOfBorderColorToColor(attr, cs, ev, f);
    } else if attr.ZIndex? || attr.Display? {
      FramesOfZIndexToDisplay(attr, cs, ev, f);
    } else if attr.Position? || attr.Overflow? {
      FramesOfPositionToOverflow(attr, cs, ev, f);
    } else if attr.OverflowX? || attr.OverflowY? {
      FramesOfOverflowXToOverflowY(attr, cs, ev, f);
    } else if attr.Direction? || attr.Left? {
      FramesOfDirectionToLeft(attr, cs, ev, f);
    } else if attr.Right? || attr.Top? {
      FramesOfRightToTop(attr, cs, ev, f);
    } else if attr.Bottom? || attr.Width? {
      FramesOfBottomToWidth(attr, cs, ev, f);
    } else if attr.Height? || attr.MinWidth? {
      FramesOfHeightToMinWidth(attr, cs, ev, f);
    } else if attr.MinHeight? || attr.MaxWidth? {
      FramesOfMinHeightToMaxWidth(attr, cs, ev, f);
    } else if attr.MaxHeight? || attr.Margin? {
      FramesOfMaxHeightToMargin(attr, cs, ev, f);
    } else if attr.MarginLeft? || attr.MarginRight? {
      FramesOfMarginLeftToMarginRight(attr, cs, ev, f);
    } else if attr.MarginTop? || attr.MarginBottom? {
      FramesOfMarginTopToMarginBottom(attr, cs, ev, f);
    } else if attr.Padding? || attr.PaddingLeft? {
      FramesOfPaddingToPaddingLeft(attr, cs, ev, f);
    } else if attr.PaddingRight? || attr.PaddingTop? {
      FramesOfPaddingRightToPaddingTop(attr, cs, ev, f);
    } else if attr.PaddingBottom? || attr.Border? {
      FramesOfPaddingBottomToBorder(attr, cs, ev, f);
    } else if attr.BorderLeft? || attr.BorderRight? {
      FramesOfBorderLeftToBorderRight(attr, cs, ev, f);
    } else if attr.BorderTop? || attr.BorderBottom? {
      FramesOfBorderTopToBorderBottom(attr, cs, ev, f);
    } else if attr.FlexDirection? || attr.FlexWrap? {
      FramesOfFlexDirectionToFlexWrap(attr, cs, ev, f);
    } else if attr.FlexGrow? || attr.FlexShrink? {
      FramesOfFlexGrowToFlexShrink(attr, cs, ev, f);
    } else if attr.FlexBasis? || attr.RowGap? {
      FramesOfFlexBasisToRowGap(attr, cs, ev, f);
    } else if attr.ColumnGap? || attr.Gap? {
      FramesOfColumnGapToGap(attr, cs, ev, f);
    } else if attr.AlignItems? || attr.AlignSelf? {
      FramesOfAlignItemsToAlignSelf(attr, cs, ev, f);
    } else if attr.AlignContent? || attr.JustifyItems? {
      FramesOfAlignContentToJustifyItems(attr, cs, ev, f);
    } else {
      FramesOfJustifySelfToJustifyContent(attr, cs, ev, f);
    }
  }

  // The frame proof above is split so that each proof obligation stays small. One unfolding of
  // `ApplyAttr` on an arbitrary attribute, together with a field read, is too large for a single
  // obligation. The helpers below come in four kinds:
  //  - `UnwrittenBy<C1>To<C2>`: for two neighbouring constructors, turns `!Writes` into
  //    explicit field inequalities;
  //  - `<C1>To<C2>KeepsOthers`: the frame from those inequalities;
  //  - `FramesOf<C1>To<C2>`: chains the two;
  //  - per constructor, `ApplyOf<C>` gives the updated style in record form and `FrameOf<C>`
  //    combines it with the matching `Fields.Set<X>KeepsOthers`.

  lemma UnwrittenByBackgroundImageToBackgroundColor(attr: ElementStyleAttr, ev: Evaluator, f: F.Field)
    requires attr.BackgroundImage? || attr.BackgroundColor?
    requires !Writes(attr, ev, f)
    ensures (attr.BackgroundImage? ==> f != F.Field.Image) && (attr.BackgroundColor? && ev.color(attr.e).Some? ==> f != F.Field.BackgroundColor)
  {
  }

  lemma FramesOfBackgroundImageToBackgroundColor(attr: ElementStyleAttr, cs: ComputedStyle, ev: Evaluator, f: F.Field)
    requires attr.BackgroundImage? || attr.BackgroundColor?
    requires !Writes(attr, ev, f)
    ensures F.Get(ApplyAttr(attr, cs, ev), f) == F.Get(cs, f)
  {
    UnwrittenByBackgroundImageToBackgroundColor(attr, ev, f);
    BackgroundImageToBackgroundColorKeepsOthers(attr, cs, ev, f);
  }

  lemma BackgroundImageToBackgroundColorKeepsOthers(attr: ElementStyleAttr, cs: ComputedStyle, ev: Evaluator, f: F.Field)
    requires attr.BackgroundImage? || attr.BackgroundColor?
    requires (attr.BackgroundImage? ==> f != F.Field.Image) && (attr.BackgroundColor? && ev.color(attr.e).Some? ==> f != F.Field.BackgroundColor)
    ensures F.Get(ApplyAttr(attr, cs, ev), f) == F.Get(cs, f)
  {
    if attr.BackgroundImage? {
      FrameOfBackgroundImage(attr.image, cs, ev, f);
    } else {
      FrameOfBackgroundColor(attr.e, cs, ev, f);
    }
  }

  lemma UnwrittenByBorderColorToColor(attr: ElementStyleAttr, ev: Evaluator, f: F.Field)
    requires attr.BorderColor? || attr.Color?
    requires !Writes(attr, ev, f)
    ensures (attr.BorderColor? && ev.color(attr.e).Some? ==> f != F.Field.BorderColor) && (attr.Color? && ev.color(attr.e).Some? ==> f != F.Field.TextColor)
  {
  }

  lemma FramesOfBorderColorToColor(attr: ElementStyleAttr, cs: ComputedStyle, ev: Evaluator, f: F.Field)
    requires attr.BorderColor? || attr.Color?
    requires !Writes(attr, ev, f)
    ensures F.Get(ApplyAttr(attr, cs, ev), f) == F.Get(cs, f)
  {
    UnwrittenByBorderColorToColor(attr, ev, f);
    BorderColorToColorKeepsOthers(attr, cs, ev, f);
  }

  lemma BorderColorToColorKeepsOthers(attr: ElementStyleAttr, cs: ComputedStyle, ev: Evaluator, f: F.Field)
    requires attr.BorderColor? || attr.Color?
    requires (attr.BorderColor? && ev.color(attr.e).Some? ==> f != F.Field.BorderColor) && (attr.Color? && ev.color(attr.e).Some? ==> f != F.Field.TextColor)
    ensures F.Get(ApplyAttr(attr, cs, ev), f) == F.Get(cs, f)
  {
    if attr.BorderColor? {
      FrameOfBorderColor(attr.e, cs, ev, f);
    } else {
      FrameOfColor(attr.e, cs, ev, f);
    }
  }

  lemma UnwrittenByZIndexToDisplay(attr: ElementStyleAttr, ev: Evaluator, f: F.Field)
    requires attr.ZIndex? || attr.Display?
    requires !Writes(attr, ev, f)
    ensures (attr.ZIndex? && ev.int32(attr.e).Some? ==> f != F.Field.ZIndex) && (attr.Display? && ev.display(attr.e).Some? ==> f != F.Field.Display)
  {
  }

  lemma FramesOfZIndexToDisplay(attr: ElementStyleAttr, cs: ComputedStyle, ev: Evaluator, f: F.Field)
    requires attr.ZIndex? || attr.Display?
    requires !Writes(attr, ev, f)
    ensures F.Get(ApplyAttr(attr, cs, ev), f) == F.Get(cs, f)
  {
    UnwrittenByZIndexToDisplay(attr, ev, f);
    ZIndexToDisplayKeepsOthers(attr, cs, ev, f);
  }

  lemma ZIndexToDisplayKeepsOthers(attr: ElementStyleAttr, cs: ComputedStyle, ev: Evaluator, f: F.Field)
    requires attr.ZIndex? || attr.Display?
    requires (attr.ZIndex? && ev.int32(attr.e).Some? ==> f != F.Field.ZIndex) && (attr.Display? && ev.display(attr.e).Some? ==> f != F.Field.Display)
    ensures F.Get(ApplyAttr(attr, cs, ev), f) == F.Get(cs, f)
  {
    if attr.ZIndex? {
      FrameOfZIndex(attr.e, cs, ev, f);
    } else {
      FrameOfDisplay(attr.e, cs, ev, f);
    }
  }

  lemma UnwrittenByPositionToOverflow(attr: ElementStyleAttr, ev: Evaluator, f: F.Field)
    requires attr.Position? || attr.Overflow?
    requires !Writes(attr, ev, f)
    ensures (attr.Position? && ev.position(attr.e).Some? ==> f != F.Field.PositionType) && (attr.Overflow? && ev.overflow(attr.e).Some? ==> f != F.Field.OverflowX && f != F.Field.OverflowY)
  {
  }

  lemma FramesOfPositionToOverflow(attr: ElementStyleAttr, cs: ComputedStyle, ev: Evaluator, f: F.Field)
    requires attr.Position? || attr.Overflow?
    requires !Writes(attr, ev, f)
    ensures F.Get(ApplyAttr(attr, cs, ev), f) == F.Get(cs, f)
  {
    UnwrittenByPositionToOverflow(attr, ev, f);
    PositionToOverflowKeepsOthers(attr, cs, ev, f);
  }

  lemma PositionToOverflowKeepsOthers(attr: ElementStyleAttr, cs: ComputedStyle, ev: Evaluator, f: F.Field)
    requires attr.Position? || attr.Overflow?
    requires (attr.Position? && ev.position(attr.e).Some? ==> f != F.Field.PositionType) && (attr.Overflow? && ev.overflow(attr.e).Some? ==> f != F.Field.OverflowX && f != F.Field.OverflowY)
    ensures F.Get(ApplyAttr(attr, cs, ev), f) == F.Get(cs, f)
  {
    if attr.Position? {
      FrameOfPosition(attr.e, cs, ev, f);
    } else {
      FrameOfOverflow(attr.e, cs, ev, f);
    }
  }

  lemma UnwrittenByOverflowXToOverflowY(attr: ElementStyleAttr, ev: Evaluator, f: F.Field)
    requires attr.OverflowX? || attr.OverflowY?
    requires !Writes(attr, ev, f)
    ensures (attr.OverflowX? && ev.overflow(attr.e).Some? ==> f != F.Field.OverflowX) && (attr.OverflowY? && ev.overflow(attr.e).Some? ==> f != F.Field.OverflowY)
  {
  }

  lemma FramesOfOverflowXToOverflowY(attr: ElementStyleAttr, cs: ComputedStyle, ev: Evaluator, f: F.Field)
    requires attr.OverflowX? || attr.OverflowY?
    requires !Writes(attr, ev, f)
    ensures F.Get(ApplyAttr(attr, cs, ev), f) == F.Get(cs, f)
  {
    UnwrittenByOverflowXToOverflowY(attr, ev, f);
    OverflowXToOverflowYKeepsOthers(attr, cs, ev, f);
  }

  lemma OverflowXToOverflowYKeepsOthers(attr: ElementStyleAttr, cs: ComputedStyle, ev: Evaluator, f: F.Field)
    requires attr.OverflowX? || attr.OverflowY?
    requires (attr.OverflowX? && ev.overflow(attr.e).Some? ==> f != F.Field.OverflowX) && (attr.OverflowY? && ev.overflow(attr.e).Some? ==> f != F.Field.OverflowY)
    ensures F.Get(ApplyAttr(attr, cs, ev), f) == F.Get(cs, f)
  {
    if attr.OverflowX? {
      FrameOfOverflowX(attr.e, cs, ev, f);
    } else {
      FrameOfOverflowY(attr.e, cs, ev, f);
    }
  }

  lemma UnwrittenByDirectionToLeft(attr: ElementStyleAttr, ev: Evaluator, f: F.Field)
    requires attr.Direction? || attr.Left?
    requires !Writes(attr, ev, f)
    ensures (attr.Direction? && ev.direction(attr.e).Some? ==> f != F.Field.Direction) && (attr.Left? && ev.length(attr.e).Some? ==> f != F.Field.Left)
  {
  }

  lemma FramesOfDirectionToLeft(attr: ElementStyleAttr, cs: ComputedStyle, ev: Evaluator, f: F.Field)
    requires attr.Direction? || attr.Left?
    requires !Writes(attr, ev, f)
    ensures F.Get(ApplyAttr(attr, cs, ev), f) == F.Get(cs, f)
  {
    UnwrittenByDirectionToLeft(attr, ev, f);
    DirectionToLeftKeepsOthers(attr, cs, ev, f);
  }

  lemma DirectionToLeftKeepsOthers(attr: ElementStyleAttr, cs: ComputedStyle, ev: Evaluator, f: F.Field)
    requires attr.Direction? || attr.Left?
    requires (attr.Direction? && ev.direction(attr.e).Some? ==> f != F.Field.Direction) && (attr.Left? && ev.length(attr.e).Some? ==> f != F.Field.Left)
    ensures F.Get(ApplyAttr(attr, cs, ev), f) == F.Get(cs, f)
  {
    if attr.Direction? {
      FrameOfDirection(attr.e, cs, ev, f);
    } else {
      FrameOfLeft(attr.e, cs, ev, f);
    }
  }

  lemma UnwrittenByRightToTop(attr: ElementStyleAttr, ev: Evaluator, f: F.Field)
    requires attr.Right? || attr.Top?
    requires !Writes(attr, ev, f)
    ensures (attr.Right? && ev.length(attr.e).Some? ==> f != F.Field.Right) && (attr.Top? && ev.length(attr.e).Some? ==> f != F.Field.Top)
  {
  }

  lemma FramesOfRightToTop(attr: ElementStyleAttr, cs: ComputedStyle, ev: Evaluator, f: F.Field)
    requires attr.Right? || attr.Top?
    requires !Writes(attr, ev, f)
    ensures F.Get(ApplyAttr(attr, cs, ev), f) == F.Get(cs, f)
  {
    UnwrittenByRightToTop(attr, ev, f);
    RightToTopKeepsOthers(attr, cs, ev, f);
  }

  lemma RightToTopKeepsOthers(attr: ElementStyleAttr, cs: ComputedStyle, ev: Evaluator, f: F.Field)
    requires attr.Right? || attr.Top?
    requires (attr.Right? && ev.length(attr.e).Some? ==> f != F.Field.Right) && (attr.Top? && ev.length(attr.e).Some? ==> f != F.Field.Top)
    ensures F.Get(ApplyAttr(attr, cs, ev), f) == F.Get(cs, f)
  {
    if attr.Right? {
      FrameOfRight(attr.e, cs, ev, f);
    } else {
      FrameOfTop(attr.e, cs, ev, f);
    }
  }

  lemma UnwrittenByBottomToWidth(attr: ElementStyleAttr, ev: Evaluator, f: F.Field)
    requires attr.Bottom? || attr.Width?
    requires !Writes(attr, ev, f)
    ensures (attr.Bottom? && ev.length(attr.e).Some? ==> f != F.Field.Bottom) && (attr.Width? && ev.length(attr.e).Some? ==> f != F.Field.Width)
  {
  }

  lemma FramesOfBottomToWidth(attr: ElementStyleAttr, cs: ComputedStyle, ev: Evaluator, f: F.Field)
    requires attr.Bottom? || attr.Width?
    requires !Writes(attr, ev, f)
    ensures F.Get(ApplyAttr(attr, cs, ev), f) == F.Get(cs, f)
  {
    UnwrittenByBottomToWidth(attr, ev, f);
    BottomToWidthKeepsOthers(attr, cs, ev, f);
  }

  lemma BottomToWidthKeepsOthers(attr: ElementStyleAttr, cs: ComputedStyle, ev: Evaluator, f: F.Field)
    requires attr.Bottom? || attr.Width?
    requires (attr.Bottom? && ev.length(attr.e).Some? ==> f != F.Field.Bottom) && (attr.Width? && ev.length(attr.e).Some? ==> f != F.Field.Width)
    ensures F.Get(ApplyAttr(attr, cs, ev), f) == F.Get(cs, f)
  {
    if attr.Bottom? {
      FrameOfBottom(attr.e, cs, ev, f);
    } else {
      FrameOfWidth(attr.e, cs, ev, f);
    }
  }

  lemma UnwrittenByHeightToMinWidth(attr: ElementStyleAttr, ev: Evaluator, f: F.Field)
    requires attr.Height? || attr.MinWidth?
    requires !Writes(attr, ev, f)
    ensures (attr.Height? && ev.length(attr.e).Some? ==> f != F.Field.Height) && (attr.MinWidth? && ev.length(attr.e).Some? ==> f != F.Field.MinWidth)
  {
  }

  lemma FramesOfHeightToMinWidth(attr: ElementStyleAttr, cs: ComputedStyle, ev: Evaluator, f: F.Field)
    requires attr.Height? || attr.MinWidth?
    requires !Writes(attr, ev, f)
    ensures F.Get(ApplyAttr(attr, cs, ev), f) == F.Get(cs, f)
  {
    UnwrittenByHeightToMinWidth(attr, ev, f);
    HeightToMinWidthKeepsOthers(attr, cs, ev, f);
  }

  lemma HeightToMinWidthKeepsOthers(attr: ElementStyleAttr, cs: ComputedStyle, ev: Evaluator, f: F.Field)
    requires attr.Height? || attr.MinWidth?
    requires (attr.Height? && ev.length(attr.e).Some? ==> f != F.Field.Height) && (attr.MinWidth? && ev.length(attr.e).Some? ==> f != F.Field.MinWidth)
    ensures F.Get(ApplyAttr(attr, cs, ev), f) == F.Get(cs, f)
  {
    if attr.Height? {
      FrameOfHeight(attr.e, cs, ev, f);
    } else {
      FrameOfMinWidth(attr.e, cs, ev, f);
    }
  }

  lemma UnwrittenByMinHeightToMaxWidth(attr: ElementStyleAttr, ev: Evaluator, f: F.Field)
    requires attr.MinHeight? || attr.MaxWidth?
    requires !Writes(attr, ev, f)
    ensures (attr.MinHeight? && ev.length(attr.e).Some? ==> f != F.Field.MinHeight) && (attr.MaxWidth? && ev.length(attr.e).Some? ==> f != F.Field.MaxWidth)
  {
  }

  lemma FramesOfMinHeightToMaxWidth(attr: ElementStyleAttr, cs: ComputedStyle, ev: Evaluator, f: F.Field)
    requires attr.MinHeight? || attr.MaxWidth?
    requires !Writes(attr, ev, f)
    ensures F.Get(ApplyAttr(attr, cs, ev), f) == F.Get(cs, f)
  {
    UnwrittenByMinHeightToMaxWidth(attr, ev, f);
    MinHeightToMaxWidthKeepsOthers(attr, cs, ev, f);
  }

  lemma MinHeightToMaxWidthKeepsOthers(attr: ElementStyleAttr, cs: ComputedStyle, ev: Evaluator, f: F.Field)
    requires attr.MinHeight? || attr.MaxWidth?
    requires (attr.MinHeight? && ev.length(attr.e).Some? ==> f != F.Field.MinHeight) && (attr.MaxWidth? && ev.length(attr.e).Some? ==> f != F.Field.MaxWidth)
    ensures F.Get(ApplyAttr(attr, cs, ev), f) == F.Get(cs, f)
  {
    if attr.MinHeight? {
      FrameOfMinHeight(attr.e, cs, ev, f);
    } else {
      FrameOfMaxWidth(attr.e, cs, ev, f);
    }
  }

  lemma UnwrittenByMaxHeightToMargin(attr: ElementStyleAttr, ev: Evaluator, f: F.Field)
    requires attr.MaxHeight? || attr.Margin?
    requires !Writes(attr, ev, f)
    ensures (attr.MaxHeight? && ev.length(attr.e).Some? ==> f != F.Field.MaxHeight) && (attr.Margin? && ev.rect(attr.e).Some? ==> f != F.Field.MarginLeft && f != F.Field.MarginRight && f != F.Field.MarginTop && f != F.Field.MarginBottom)
  {
  }

  lemma FramesOfMaxHeightToMargin(attr: ElementStyleAttr, cs: ComputedStyle, ev: Evaluator, f: F.Field)
    requires attr.MaxHeight? || attr.Margin?
    requires !Writes(attr, ev, f)
    ensures F.Get(ApplyAttr(attr, cs, ev), f) == F.Get(cs, f)
  {
    UnwrittenByMaxHeightToMargin(attr, ev, f);
    MaxHeightToMarginKeepsOthers(attr, cs, ev, f);
  }

  lemma MaxHeightToMarginKeepsOthers(attr: ElementStyleAttr, cs: ComputedStyle, ev: Evaluator, f: F.Field)
    requires attr.MaxHeight? || attr.Margin?
    requires (attr.MaxHeight? && ev.length(attr.e).Some? ==> f != F.Field.MaxHeight) && (attr.Margin? && ev.rect(attr.e).Some? ==> f != F.Field.MarginLeft && f != F.Field.MarginRight && f != F.Field.MarginTop && f != F.Field.MarginBottom)
    ensures F.Get(ApplyAttr(attr, cs, ev), f) == F.Get(cs, f)
  {
    if attr.MaxHeight? {
      FrameOfMaxHeight(attr.e, cs, ev, f);
    } else {
      FrameOfMargin(attr.e, cs, ev, f);
    }
  }

  lemma UnwrittenByMarginLeftToMarginRight(attr: ElementStyleAttr, ev: Evaluator, f: F.Field)
    requires attr.MarginLeft? || attr.MarginRight?
    requires !Writes(attr, ev, f)
    ensures (attr.MarginLeft? && ev.length(attr.e).Some? ==> f != F.Field.MarginLeft) && (attr.MarginRight? && ev.length(attr.e).Some? ==> f != F.Field.MarginRight)
  {
  }

  lemma FramesOfMarginLeftToMarginRight(attr: ElementStyleAttr, cs: ComputedStyle, ev: Evaluator, f: F.Field)
    requires attr.MarginLeft? || attr.MarginRight?
    requires !Writes(attr, ev, f)
    ensures F.Get(ApplyAttr(attr, cs, ev), f) == F.Get(cs, f)
  {
    UnwrittenByMarginLeftToMarginRight(attr, ev, f);
    MarginLeftToMarginRightKeepsOthers(attr, cs, ev, f);
  }

  lemma MarginLeftToMarginRightKeepsOthers(attr: ElementStyleAttr, cs: ComputedStyle, ev: Evaluator, f: F.Field)
    requires attr.MarginLeft? || attr.MarginRight?
    requires (attr.MarginLeft? && ev.length(attr.e).Some? ==> f != F.Field.MarginLeft) && (attr.MarginRight? && ev.length(attr.e).Some? ==> f != F.Field.MarginRight)
    ensures F.Get(ApplyAttr(attr, cs, ev), f) == F.Get(cs, f)
  {
    if attr.MarginLeft? {
      FrameOfMarginLeft(attr.e, cs, ev, f);
    } else {
      FrameOfMarginRight(attr.e, cs, ev, f);
    }
  }

  lemma UnwrittenByMarginTopToMarginBottom(attr: ElementStyleAttr, ev: Evaluator, f: F.Field)
    requires attr.MarginTop? || attr.MarginBottom?
    requires !Writes(attr, ev, f)
    ensures (attr.MarginTop? && ev.length(attr.e).Some? ==> f != F.Field.MarginTop) && (attr.MarginBottom? && ev.length(attr.e).Some? ==> f != F.Field.MarginBottom)
  {
  }

  lemma FramesOfMarginTopToMarginBottom(attr: ElementStyleAttr, cs: ComputedStyle, ev: Evaluator, f: F.Field)
    requires attr.MarginTop? || attr.MarginBottom?
    requires !Writes(attr, ev, f)
    ensures F.Get(ApplyAttr(attr, cs, ev), f) == F.Get(cs, f)
  {
    UnwrittenByMarginTopToMarginBottom(attr, ev, f);
    MarginTopToMarginBottomKeepsOthers(attr, cs, ev, f);
  }

  lemma MarginTopToMarginBottomKeepsOthers(attr: ElementStyleAttr, cs: ComputedStyle, ev: Evaluator, f: F.Field)
    requires attr.MarginTop? || attr.MarginBottom?
    requires (attr.MarginTop? && ev.length(attr.e).Some? ==> f != F.Field.MarginTop) && (attr.MarginBottom? && ev.length(attr.e).Some? ==> f != F.Field.MarginBottom)
    ensures F.Get(ApplyAttr(attr, cs, ev), f) == F.Get(cs, f)
  {
    if attr.MarginTop? {
      FrameOfMarginTop(attr.e, cs, ev, f);
    } else {
      FrameOfMarginBottom(attr.e, cs, ev, f);
    }
  }

  lemma UnwrittenByPaddingToPaddingLeft(attr: ElementStyleAttr, ev: Evaluator, f: F.Field)
    requires attr.Padding? || attr.PaddingLeft?
    requires !Writes(attr, ev, f)
    ensures (attr.Padding? && ev.rect(attr.e).Some? ==> f != F.Field.PaddingLeft && f != F.Field.PaddingRight && f != F.Field.PaddingTop && f != F.Field.PaddingBottom) && (attr.PaddingLeft? && ev.length(attr.e).Some? ==> f != F.Field.PaddingLeft)
  {
  }

  lemma FramesOfPaddingToPaddingLeft(attr: ElementStyleAttr, cs: ComputedStyle, ev: Evaluator, f: F.Field)
    requires attr.Padding? || attr.PaddingLeft?
    requires !Writes(attr, ev, f)
    ensures F.Get(ApplyAttr(attr, cs, ev), f) == F.Get(cs, f)
  {
    UnwrittenByPaddingToPaddingLeft(attr, ev, f);
    PaddingToPaddingLeftKeepsOthers(attr, cs, ev, f);
  }

  lemma PaddingToPaddingLeftKeepsOthers(attr: ElementStyleAttr, cs: ComputedStyle, ev: Evaluator, f: F.Field)
    requires attr.Padding? || attr.PaddingLeft?
    requires (attr.Padding? && ev.rect(attr.e).Some? ==> f != F.Field.PaddingLeft && f != F.Field.PaddingRight && f != F.Field.PaddingTop && f != F.Field.PaddingBottom) && (attr.PaddingLeft? && ev.length(attr.e).Some? ==> f != F.Field.PaddingLeft)
    ensures F.Get(ApplyAttr(attr, cs, ev), f) == F.Get(cs, f)
  {
    if attr.Padding? {
      FrameOfPadding(attr.e, cs, ev, f);
    } else {
      FrameOfPaddingLeft(attr.e, cs, ev, f);
    }
  }

  lemma UnwrittenByPaddingRightToPaddingTop(attr: ElementStyleAttr, ev: Evaluator, f: F.Field)
    requires attr.PaddingRight? || attr.PaddingTop?
    requires !Writes(attr, ev, f)
    ensures (attr.PaddingRight? && ev.length(attr.e).Some? ==> f != F.Field.PaddingRight) && (attr.PaddingTop? && ev.length(attr.e).Some? ==> f != F.Field.PaddingTop)
  {
  }

  lemma FramesOfPaddingRightToPaddingTop(attr: ElementStyleAttr, cs: ComputedStyle, ev: Evaluator, f: F.Field)
    requires attr.PaddingRight? || attr.PaddingTop?
    requires !Writes(attr, ev, f)
    ensures F.Get(ApplyAttr(attr, cs, ev), f) == F.Get(cs, f)
  {
    UnwrittenByPaddingRightToPaddingTop(attr, ev, f);
    PaddingRightToPaddingTopKeepsOthers(attr, cs, ev, f);
  }

  lemma PaddingRightToPaddingTopKeepsOthers(attr: ElementStyleAttr, cs: ComputedStyle, ev: Evaluator, f: F.Field)
    requires attr.PaddingRight? || attr.PaddingTop?
    requires (attr.PaddingRight? && ev.length(attr.e).Some? ==> f != F.Field.PaddingRight) && (attr.PaddingTop? && ev.length(attr.e).Some? ==> f != F.Field.PaddingTop)
    ensures F.Get(ApplyAttr(attr, cs, ev), f) == F.Get(cs, f)
  {
    if attr.PaddingRight? {
      FrameOfPaddingRight(attr.e, cs, ev, f);
    } else {
      FrameOfPaddingTop(attr.e, cs, ev, f);
    }
  }

  lemma UnwrittenByPaddingBottomToBorder(attr: ElementStyleAttr, ev: Evaluator, f: F.Field)
    requires attr.PaddingBottom? || attr.Border?
    requires !Writes(attr, ev, f)
    ensures (attr.PaddingBottom? && ev.length(attr.e).Some? ==> f != F.Field.PaddingBottom) && (attr.Border? && ev.rect(attr.e).Some? ==> f != F.Field.BorderLeft && f != F.Field.BorderRight && f != F.Field.BorderTop && f != F.Field.BorderBottom)
  {
  }

  lemma FramesOfPaddingBottomToBorder(attr: ElementStyleAttr, cs: ComputedStyle, ev: Evaluator, f: F.Field)
    requires attr.PaddingBottom? || attr.Border?
    requires !Writes(attr, ev, f)
    ensures F.Get(ApplyAttr(attr, cs, ev), f) == F.Get(cs, f)
  {
    UnwrittenByPaddingBottomToBorder(attr, ev, f);
    PaddingBottomToBorderKeepsOthers(attr, cs, ev, f);
  }

  lemma PaddingBottomToBorderKeepsOthers(attr: ElementStyleAttr, cs: ComputedStyle, ev: Evaluator, f: F.Field)
    requires attr.PaddingBottom? || attr.Border?
    requires (attr.PaddingBottom? && ev.length(attr.e).Some? ==> f != F.Field.PaddingBottom) && (attr.Border? && ev.rect(attr.e).Some? ==> f != F.Field.BorderLeft && f != F.Field.BorderRight && f != F.Field.BorderTop && f != F.Field.BorderBottom)
    ensures F.Get(ApplyAttr(attr, cs, ev), f) == F.Get(cs, f)
  {
    if attr.PaddingBottom? {
      FrameOfPaddingBottom(attr.e, cs, ev, f);
    } else {
      FrameOfBorder(attr.e, cs, ev, f);
    }
  }

  lemma UnwrittenByBorderLeftToBorderRight(attr: ElementStyleAttr, ev: Evaluator, f: F.Field)
    requires attr.BorderLeft? || attr.BorderRight?
    requires !Writes(attr, ev, f)
    ensures (attr.BorderLeft? && ev.length(attr.e).Some? ==> f != F.Field.BorderLeft) && (attr.BorderRight? && ev.length(attr.e).Some? ==> f != F.Field.BorderRight)
  {
  }

  lemma FramesOfBorderLeftToBorderRight(attr: ElementStyleAttr, cs: ComputedStyle, ev: Evaluator, f: F.Field)
    requires attr.BorderLeft? || attr.BorderRight?
    requires !Writes(attr, ev, f)
    ensures F.Get(ApplyAttr(attr, cs, ev), f) == F.Get(cs, f)
  {
    UnwrittenByBorderLeftToBorderRight(attr, ev, f);
    BorderLeftToBorderRightKeepsOthers(attr, cs, ev, f);
  }

  lemma BorderLeftToBorderRightKeepsOthers(attr: ElementStyleAttr, cs: ComputedStyle, ev: Evaluator, f: F.Field)
    requires attr.BorderLeft? || attr.BorderRight?
    requires (attr.BorderLeft? && ev.length(attr.e).Some? ==> f != F.Field.BorderLeft) && (attr.BorderRight? && ev.length(attr.e).Some? ==> f != F.Field.BorderRight)
    ensures F.Get(ApplyAttr(attr, cs, ev), f) == F.Get(cs, f)
  {
    if attr.BorderLeft? {
      FrameOfBorderLeft(attr.e, cs, ev, f);
    } else {
      FrameOfBorderRight(attr.e, cs, ev, f);
    }
  }

  lemma UnwrittenByBorderTopToBorderBottom(attr: ElementStyleAttr, ev: Evaluator, f: F.Field)
    requires attr.BorderTop? || attr.BorderBottom?
    requires !Writes(attr, ev, f)
    ensures (attr.BorderTop? && ev.length(attr.e).Some? ==> f != F.Field.BorderTop) && (attr.BorderBottom? && ev.length(attr.e).Some? ==> f != F.Field.BorderBottom)
  {
  }

  lemma FramesOfBorderTopToBorderBottom(attr: ElementStyleAttr, cs: ComputedStyle, ev: Evaluator, f: F.Field)
    requires attr.BorderTop? || attr.BorderBottom?
    requires !Writes(attr, ev, f)
    ensures F.Get(ApplyAttr(attr, cs, ev), f) == F.Get(cs, f)
  {
    UnwrittenByBorderTopToBorderBottom(attr, ev, f);
    BorderTopToBorderBottomKeepsOthers(attr, cs, ev, f);
  }

  lemma BorderTopToBorderBottomKeepsOthers(attr: ElementStyleAttr, cs: ComputedStyle, ev: Evaluator, f: F.Field)
    requires attr.BorderTop? || attr.BorderBottom?
    requires (attr.BorderTop? && ev.length(attr.e).Some? ==> f != F.Field.BorderTop) && (attr.BorderBottom? && ev.length(attr.e).Some? ==> f != F.Field.BorderBottom)
    ensures F.Get(ApplyAttr(attr, cs, ev), f) == F.Get(cs, f)
  {
    if attr.BorderTop? {
      FrameOfBorderTop(attr.e, cs, ev, f);
    } else {
      FrameOfBorderBottom(attr.e, cs, ev, f);
    }
  }

  lemma UnwrittenByFlexDirectionToFlexWrap(attr: ElementStyleAttr, ev: Evaluator, f: F.Field)
    requires attr.FlexDirection? || attr.FlexWrap?
    requires !Writes(attr, ev, f)
    ensures (attr.FlexDirection? && ev.flexDirection(attr.e).Some? ==> f != F.Field.FlexDirection) && (attr.FlexWrap? && ev.flexWrap(attr.e).Some? ==> f != F.Field.FlexWrap)
  {
  }

  lemma FramesOfFlexDirectionToFlexWrap(attr: ElementStyleAttr, cs: ComputedStyle, ev: Evaluator, f: F.Field)
    requires attr.FlexDirection? || attr.FlexWrap?
    requires !Writes(attr, ev, f)
    ensures F.Get(ApplyAttr(attr, cs, ev), f) == F.Get(cs, f)
  {
    UnwrittenByFlexDirectionToFlexWrap(attr, ev, f);
    FlexDirectionToFlexWrapKeepsOthers(attr, cs, ev, f);
  }

  lemma FlexDirectionToFlexWrapKeepsOthers(attr: ElementStyleAttr, cs: ComputedStyle, ev: Evaluator, f: F.Field)
    requires attr.FlexDirection? || attr.FlexWrap?
    requires (attr.FlexDirection? && ev.flexDirection(attr.e).Some? ==> f != F.Field.FlexDirection) && (attr.FlexWrap? && ev.flexWrap(attr.e).Some? ==> f != F.Field.FlexWrap)
    ensures F.Get(ApplyAttr(attr, cs, ev), f) == F.Get(cs, f)
  {
    if attr.FlexDirection? {
      FrameOfFlexDirection(attr.e, cs, ev, f);
    } else {
      FrameOfFlexWrap(attr.e, cs, ev, f);
    }
  }

  lemma UnwrittenByFlexGrowToFlexShrink(attr: ElementStyleAttr, ev: Evaluator, f: F.Field)
    requires attr.FlexGrow? || attr.FlexShrink?
    requires !Writes(attr, ev, f)
    ensures (attr.FlexGrow? && ev.scalar(attr.e).Some? ==> f != F.Field.FlexGrow) && (attr.FlexShrink? && ev.scalar(attr.e).Some? ==> f != F.Field.FlexShrink)
  {
  }

  lemma FramesOfFlexGrowToFlexShrink(attr: ElementStyleAttr, cs: ComputedStyle, ev: Evaluator, f: F.Field)
    requires attr.FlexGrow? || attr.FlexShrink?
    requires !Writes(attr, ev, f)
    ensures F.Get(ApplyAttr(attr, cs, ev), f) == F.Get(cs, f)
  {
    UnwrittenByFlexGrowToFlexShrink(attr, ev, f);
    FlexGrowToFlexShrinkKeepsOthers(attr, cs, ev, f);
  }

  lemma FlexGrowToFlexShrinkKeepsOthers(attr: ElementStyleAttr, cs: ComputedStyle, ev: Evaluator, f: F.Field)
    requires attr.FlexGrow? || attr.FlexShrink?
    requires (attr.FlexGrow? && ev.scalar(attr.e).Some? ==> f != F.Field.FlexGrow) && (attr.FlexShrink? && ev.scalar(attr.e).Some? ==> f != F.Field.FlexShrink)
    ensures F.Get(ApplyAttr(attr, cs, ev), f) == F.Get(cs, f)
  {
    if attr.FlexGrow? {
      FrameOfFlexGrow(attr.e, cs, ev, f);
    } else {
      FrameOfFlexShrink(attr.e, cs, ev, f);
    }
  }

  lemma UnwrittenByFlexBasisToRowGap(attr: ElementStyleAttr, ev: Evaluator, f: F.Field)
    requires attr.FlexBasis? || attr.RowGap?
    requires !Writes(attr, ev, f)
    ensures (attr.FlexBasis? && ev.length(attr.e).Some? ==> f != F.Field.FlexBasis) && (attr.RowGap? && ev.length(attr.e).Some? ==> f != F.Field.RowGap)
  {
  }

  lemma FramesOfFlexBasisToRowGap(attr: ElementStyleAttr, cs: ComputedStyle, ev: Evaluator, f: F.Field)
    requires attr.FlexBasis? || attr.RowGap?
    requires !Writes(attr, ev, f)
    ensures F.Get(ApplyAttr(attr, cs, ev), f) == F.Get(cs, f)
  {
    UnwrittenByFlexBasisToRowGap(attr, ev, f);
    FlexBasisToRowGapKeepsOthers(attr, cs, ev, f);
  }

  lemma FlexBasisToRowGapKeepsOthers(attr: ElementStyleAttr, cs: ComputedStyle, ev: Evaluator, f: F.Field)
    requires attr.FlexBasis? || attr.RowGap?
    requires (attr.FlexBasis? && ev.length(attr.e).Some? ==> f != F.Field.FlexBasis) && (attr.RowGap? && ev.length(attr.e).Some? ==> f != F.Field.RowGap)
    ensures F.Get(ApplyAttr(attr, cs, ev), f) == F.Get(cs, f)
  {
    if attr.FlexBasis? {
      FrameOfFlexBasis(attr.e, cs, ev, f);
    } else {
      FrameOfRowGap(attr.e, cs, ev, f);
    }
  }

  lemma UnwrittenByColumnGapToGap(attr: ElementStyleAttr, ev: Evaluator, f: F.Field)
    requires attr.ColumnGap? || attr.Gap?
    requires !Writes(attr, ev, f)
    ensures (attr.ColumnGap? && ev.length(attr.e).Some? ==> f != F.Field.ColumnGap) && (attr.Gap? && ev.length(attr.e).Some? ==> f != F.Field.RowGap && f != F.Field.ColumnGap)
  {
  }

  lemma FramesOfColumnGapToGap(attr: ElementStyleAttr, cs: ComputedStyle, ev: Evaluator, f: F.Field)
    requires attr.ColumnGap? || attr.Gap?
    requires !Writes(attr, ev, f)
    ensures F.Get(ApplyAttr(attr, cs, ev), f) == F.Get(cs, f)
  {
    UnwrittenByColumnGapToGap(attr, ev, f);
    ColumnGapToGapKeepsOthers(attr, cs, ev, f);
  }

  lemma ColumnGapToGapKeepsOthers(attr: ElementStyleAttr, cs: ComputedStyle, ev: Evaluator, f: F.Field)
    requires attr.ColumnGap? || attr.Gap?
    requires (attr.ColumnGap? && ev.length(attr.e).Some? ==> f != F.Field.ColumnGap) && (attr.Gap? && ev.length(attr.e).Some? ==> f != F.Field.RowGap && f != F.Field.ColumnGap)
    ensures F.Get(ApplyAttr(attr, cs, ev), f) == F.Get(cs, f)
  {
    if attr.ColumnGap? {
      FrameOfColumnGap(attr.e, cs, ev, f);
    } else {
      FrameOfGap(attr.e, cs, ev, f);
    }
  }

  lemma UnwrittenByAlignItemsToAlignSelf(attr: ElementStyleAttr, ev: Evaluator, f: F.Field)
    requires attr.AlignItems? || attr.AlignSelf?
    requires !Writes(attr, ev, f)
    ensures (attr.AlignItems? && ev.alignItems(attr.e).Some? ==> f != F.Field.AlignItems) && (attr.AlignSelf? && ev.alignSelf(attr.e).Some? ==> f != F.Field.AlignSelf)
  {
  }

  lemma FramesOfAlignItemsToAlignSelf(attr: ElementStyleAttr, cs: ComputedStyle, ev: Evaluator, f: F.Field)
    requires attr.AlignItems? || attr.AlignSelf?
    requires !Writes(attr, ev, f)
    ensures F.Get(ApplyAttr(attr, cs, ev), f) == F.Get(cs, f)
  {
    UnwrittenByAlignItemsToAlignSelf(attr, ev, f);
    AlignItemsToAlignSelfKeepsOthers(attr, cs, ev, f);
  }

  lemma AlignItemsToAlignSelfKeepsOthers(attr: ElementStyleAttr, cs: ComputedStyle, ev: Evaluator, f: F.Field)
    requires attr.AlignItems? || attr.AlignSelf?
    requires (attr.AlignItems? && ev.alignItems(attr.e).Some? ==> f != F.Field.AlignItems) && (attr.AlignSelf? && ev.alignSelf(attr.e).Some? ==> f != F.Field.AlignSelf)
    ensures F.Get(ApplyAttr(attr, cs, ev), f) == F.Get(cs, f)
  {
    if attr.AlignItems? {
      FrameOfAlignItems(attr.e, cs, ev, f);
    } else {
      FrameOfAlignSelf(attr.e, cs, ev, f);
    }
  }

  lemma UnwrittenByAlignContentToJustifyItems(attr: ElementStyleAttr, ev: Evaluator, f: F.Field)
    requires attr.AlignContent? || attr.JustifyItems?
    requires !Writes(attr, ev, f)
    ensures (attr.AlignContent? && ev.alignContent(attr.e).Some? ==> f != F.Field.AlignContent) && (attr.JustifyItems? && ev.justifyItems(attr.e).Some? ==> f != F.Field.JustifyItems)
  {
  }

  lemma FramesOfAlignContentToJustifyItems(attr: ElementStyleAttr, cs: ComputedStyle, ev: Evaluator, f: F.Field)
    requires attr.AlignContent? || attr.JustifyItems?
    requires !Writes(attr, ev, f)
    ensures F.Get(ApplyAttr(attr, cs, ev), f) == F.Get(cs, f)
  {
    UnwrittenByAlignContentToJustifyItems(attr, ev, f);
    AlignContentToJustifyItemsKeepsOthers(attr, cs, ev, f);
  }

  lemma AlignContentToJustifyItemsKeepsOthers(attr: ElementStyleAttr, cs: ComputedStyle, ev: Evaluator, f: F.Field)
    requires attr.AlignContent? || attr.JustifyItems?
    requires (attr.AlignContent? && ev.alignContent(attr.e).Some? ==> f != F.Field.AlignContent) && (attr.JustifyItems? && ev.justifyItems(attr.e).Some? ==> f != F.Field.JustifyItems)
    ensures F.Get(ApplyAttr(attr, cs, ev), f) == F.Get(cs, f)
  {
    if attr.AlignContent? {
      FrameOfAlignContent(attr.e, cs, ev, f);
    } else {
      FrameOfJustifyItems(attr.e, cs, ev, f);
    }
  }

  lemma UnwrittenByJustifySelfToJustifyContent(attr: ElementStyleAttr, ev: Evaluator, f: F.Field)
    requires attr.JustifySelf? || attr.JustifyContent?
    requires !Writes(attr, ev, f)
    ensures (attr.JustifySelf? && ev.justifySelf(attr.e).Some? ==> f != F.Field.JustifySelf) && (attr.JustifyContent? && ev.justifyContent(attr.e).Some? ==> f != F.Field.JustifyContent)
  {
  }

  lemma FramesOfJustifySelfToJustifyContent(attr: ElementStyleAttr, cs: ComputedStyle, ev: Evaluator, f: F.Field)
    requires attr.JustifySelf? || attr.JustifyContent?
    requires !Writes(attr, ev, f)
    ensures F.Get(ApplyAttr(attr, cs, ev), f) == F.Get(cs, f)
  {
    UnwrittenByJustifySelfToJustifyContent(attr, ev, f);
    JustifySelfToJustifyContentKeepsOthers(attr, cs, ev, f);
  }

  lemma JustifySelfToJustifyContentKeepsOthers(attr: ElementStyleAttr, cs: ComputedStyle, ev: Evaluator, f: F.Field)
    requires attr.JustifySelf? || attr.JustifyContent?
    requires (attr.JustifySelf? && ev.justifySelf(attr.e).Some? ==> f != F.Field.JustifySelf) && (attr.JustifyContent? && ev.justifyContent(attr.e).Some? ==> f != F.Field.JustifyContent)
    ensures F.Get(ApplyAttr(attr, cs, ev), f) == F.Get(cs, f)
  {
    if attr.JustifySelf? {
      FrameOfJustifySelf(attr.e, cs, ev, f);
    } else {
      FrameOfJustifyContent(attr.e, cs, ev, f);
    }
  }

  lemma ApplyOfBackgroundImage(image: Option<Handle>, cs: ComputedStyle, ev: Evaluator)
    ensures ApplyAttr(ElementStyleAttr.BackgroundImage(image), cs, ev) == F.WithImage(cs, image)
  {
  }

  lemma FrameOfBackgroundImage(image: Option<Handle>, cs: ComputedStyle, ev: Evaluator, f: F.Field)
    requires f != F.Field.Image
    ensures F.Get(ApplyAttr(ElementStyleAttr.BackgroundImage(image), cs, ev), f) == F.Get(cs, f)
  {
    ApplyOfBackgroundImage(image, cs, ev);
    F.SetImageKeepsOthers(cs, image, f);
  }

  lemma ApplyOfBackgroundColor(e: Expr, cs: ComputedStyle, ev: Evaluator)
    requires ev.color(e).Some?
    ensures ApplyAttr(ElementStyleAttr.BackgroundColor(e), cs, ev) == F.WithBackgroundColor(cs, ev.color(e).value)
  {
  }

  lemma FrameOfBackgroundColor(e: Expr, cs: ComputedStyle, ev: Evaluator, f: F.Field)
    requires ev.color(e).Some? ==> f != F.Field.BackgroundColor
    ensures F.Get(ApplyAttr(ElementStyleAttr.BackgroundColor(e), cs, ev), f) == F.Get(cs, f)
  {
    if ev.color(e).Some? {
      ApplyOfBackgroundColor(e, cs, ev);
      F.SetBackgroundColorKeepsOthers(cs, ev.color(e).value, f);
    }
  }

  lemma ApplyOfBorderColor(e: Expr, cs: ComputedStyle, ev: Evaluator)
    requires ev.color(e).Some?
    ensures ApplyAttr(ElementStyleAttr.BorderColor(e), cs, ev) == F.WithBorderColor(cs, ev.color(e).value)
  {
  }

  lemma FrameOfBorderColor(e: Expr, cs: ComputedStyle, ev: Evaluator, f: F.Field)
    requires ev.color(e).Some? ==> f != F.Field.BorderColor
    ensures F.Get(ApplyAttr(ElementStyleAttr.BorderColor(e), cs, ev), f) == F.Get(cs, f)
  {
    if ev.color(e).Some? {
      ApplyOfBorderColor(e, cs, ev);
      F.SetBorderColorKeepsOthers(cs, ev.color(e).value, f);
    }
  }

  lemma ApplyOfColor(e: Expr, cs: ComputedStyle, ev: Evaluator)
    requires ev.color(e).Some?
    ensures ApplyAttr(ElementStyleAttr.Color(e), cs, ev) == F.WithTextColor(cs, ev.color(e).value)
  {
  }

  lemma FrameOfColor(e: Expr, cs: ComputedStyle, ev: Evaluator, f: F.Field)
    requires ev.color(e).Some? ==> f != F.Field.TextColor
    ensures F.Get(ApplyAttr(ElementStyleAttr.Color(e), cs, ev), f) == F.Get(cs, f)
  {
    if ev.color(e).Some? {
      ApplyOfColor(e, cs, ev);
      F.SetTextColorKeepsOthers(cs, ev.color(e).value, f);
    }
  }

  lemma ApplyOfZIndex(e: Expr, cs: ComputedStyle, ev: Evaluator)
    requires ev.int32(e).Some?
    ensures ApplyAttr(ElementStyleAttr.ZIndex(e), cs, ev) == F.WithZIndex(cs, Some(ev.int32(e).value))
  {
  }

  lemma FrameOfZIndex(e: Expr, cs: ComputedStyle, ev: Evaluator, f: F.Field)
    requires ev.int32(e).Some? ==> f != F.Field.ZIndex
    ensures F.Get(ApplyAttr(ElementStyleAttr.ZIndex(e), cs, ev), f) == F.Get(cs, f)
  {
    if ev.int32(e).Some? {
      ApplyOfZIndex(e, cs, ev);
      F.SetZIndexKeepsOthers(cs, Some(ev.int32(e).value), f);
    }
  }

  lemma ApplyOfDisplay(e: Expr, cs: ComputedStyle, ev: Evaluator)
    requires ev.display(e).Some?
    ensures ApplyAttr(ElementStyleAttr.Display(e), cs, ev) == F.WithDisplay(cs, ev.display(e).value)
  {
  }

  lemma FrameOfDisplay(e: Expr, cs: ComputedStyle, ev: Evaluator, f: F.Field)
    requires ev.display(e).Some? ==> f != F.Field.Display
    ensures F.Get(ApplyAttr(ElementStyleAttr.Display(e), cs, ev), f) == F.Get(cs, f)
  {
    if ev.display(e).Some? {
      ApplyOfDisplay(e, cs, ev);
      F.SetDisplayKeepsOthers(cs, ev.display(e).value, f);
    }
  }

  lemma ApplyOfPosition(e: Expr, cs: ComputedStyle, ev: Evaluator)
    requires ev.position(e).Some?
    ensures ApplyAttr(ElementStyleAttr.Position(e), cs, ev) == F.WithPositionType(cs, ev.position(e).value)
  {
  }

  lemma FrameOfPosition(e: Expr, cs: ComputedStyle, ev: Evaluator, f: F.Field)
    requires ev.position(e).Some? ==> f != F.Field.PositionType
    ensures F.Get(ApplyAttr(ElementStyleAttr.Position(e), cs, ev), f) == F.Get(cs, f)
  {
    if ev.position(e).Some? {
      ApplyOfPosition(e, cs, ev);
      F.SetPositionTypeKeepsOthers(cs, ev.position(e).value, f);
    }
  }

  lemma ApplyOfOverflow(e: Expr, cs: ComputedStyle, ev: Evaluator)
    requires ev.overflow(e).Some?
    ensures ApplyAttr(ElementStyleAttr.Overflow(e), cs, ev) == F.WithOverflow(cs, Ui.Overflow(ev.overflow(e).value, ev.overflow(e).value))
  {
  }

  lemma FrameOfOverflow(e: Expr, cs: ComputedStyle, ev: Evaluator, f: F.Field)
    requires ev.overflow(e).Some? ==> f != F.Field.OverflowX && f != F.Field.OverflowY
    ensures F.Get(ApplyAttr(ElementStyleAttr.Overflow(e), cs, ev), f) == F.Get(cs, f)
  {
    if ev.overflow(e).Some? {
      ApplyOfOverflow(e, cs, ev);
      F.SetOverflowKeepsOthers(cs, Ui.Overflow(ev.overflow(e).value, ev.overflow(e).value), f);
    }
  }

  lemma ApplyOfOverflowX(e: Expr, cs: ComputedStyle, ev: Evaluator)
    requires ev.overflow(e).Some?
    ensures ApplyAttr(ElementStyleAttr.OverflowX(e), cs, ev) == F.WithOverflowX(cs, ev.overflow(e).value)
  {
  }

  lemma FrameOfOverflowX(e: Expr, cs: ComputedStyle, ev: Evaluator, f: F.Field)
    requires ev.overflow(e).Some? ==> f != F.Field.OverflowX
    ensures F.Get(ApplyAttr(ElementStyleAttr.OverflowX(e), cs, ev), f) == F.Get(cs, f)
  {
    if ev.overflow(e).Some? {
      ApplyOfOverflowX(e, cs, ev);
      F.SetOverflowXKeepsOthers(cs, ev.overflow(e).value, f);
    }
  }

  lemma ApplyOfOverflowY(e: Expr, cs: ComputedStyle, ev: Evaluator)
    requires ev.overflow(e).Some?
    ensures ApplyAttr(ElementStyleAttr.OverflowY(e), cs, ev) == F.WithOverflowY(cs, ev.overflow(e).value)
  {
  }

  lemma FrameOfOverflowY(e: Expr, cs: ComputedStyle, ev: Evaluator, f: F.Field)
    requires ev.overflow(e).Some? ==> f != F.Field.OverflowY
    ensures F.Get(ApplyAttr(ElementStyleAttr.OverflowY(e), cs, ev), f) == F.Get(cs, f)
  {
    if ev.overflow(e).Some? {
      ApplyOfOverflowY(e, cs, ev);
      F.SetOverflowYKeepsOthers(cs, ev.overflow(e).value, f);
    }
  }

  lemma ApplyOfDirection(e: Expr, cs: ComputedStyle, ev: Evaluator)
    requires ev.direction(e).Some?
    ensures ApplyAttr(ElementStyleAttr.Direction(e), cs, ev) == F.WithDirection(cs, ev.direction(e).value)
  {
  }

  lemma FrameOfDirection(e: Expr, cs: ComputedStyle, ev: Evaluator, f: F.Field)
    requires ev.direction(e).Some? ==> f != F.Field.Direction
    ensures F.Get(ApplyAttr(ElementStyleAttr.Direction(e), cs, ev), f) == F.Get(cs, f)
  {
    if ev.direction(e).Some? {
      ApplyOfDirection(e, cs, ev);
      F.SetDirectionKeepsOthers(cs, ev.direction(e).value, f);
    }
  }

  lemma ApplyOfLeft(e: Expr, cs: ComputedStyle, ev: Evaluator)
    requires ev.length(e).Some?
    ensures ApplyAttr(ElementStyleAttr.Left(e), cs, ev) == F.WithLeft(cs, ev.length(e).value)
  {
  }

  lemma FrameOfLeft(e: Expr, cs: ComputedStyle, ev: Evaluator, f: F.Field)
    requires ev.length(e).Some? ==> f != F.Field.Left
    ensures F.Get(ApplyAttr(ElementStyleAttr.Left(e), cs, ev), f) == F.Get(cs, f)
  {
    if ev.length(e).Some? {
      ApplyOfLeft(e, cs, ev);
      F.SetLeftKeepsOthers(cs, ev.length(e).value, f);
    }
  }

  lemma ApplyOfRight(e: Expr, cs: ComputedStyle, ev: Evaluator)
    requires ev.length(e).Some?
    ensures ApplyAttr(ElementStyleAttr.Right(e), cs, ev) == F.WithRight(cs, ev.length(e).value)
  {
  }

  lemma FrameOfRight(e: Expr, cs: ComputedStyle, ev: Evaluator, f: F.Field)
    requires ev.length(e).Some? ==> f != F.Field.Right
    ensures F.Get(ApplyAttr(ElementStyleAttr.Right(e), cs, ev), f) == F.Get(cs, f)
  {
    if ev.length(e).Some? {
      ApplyOfRight(e, cs, ev);
      F.SetRightKeepsOthers(cs, ev.length(e).value, f);
    }
  }

  lemma ApplyOfTop(e: Expr, cs: ComputedStyle, ev: Evaluator)
    requires ev.length(e).Some?
    ensures ApplyAttr(ElementStyleAttr.Top(e), cs, ev) == F.WithTop(cs, ev.length(e).value)
  {
  }

  lemma FrameOfTop(e: Expr, cs: ComputedStyle, ev: Evaluator, f: F.Field)
    requires ev.length(e).Some? ==> f != F.Field.Top
    ensures F.Get(ApplyAttr(ElementStyleAttr.Top(e), cs, ev), f) == F.Get(cs, f)
  {
    if ev.length(e).Some? {
      ApplyOfTop(e, cs, ev);
      F.SetTopKeepsOthers(cs, ev.length(e).value, f);
    }
  }

  lemma ApplyOfBottom(e: Expr, cs: ComputedStyle, ev: Evaluator)
    requires ev.length(e).Some?
    ensures ApplyAttr(ElementStyleAttr.Bottom(e), cs, ev) == F.WithBottom(cs, ev.length(e).value)
  {
  }

  lemma FrameOfBottom(e: Expr, cs: ComputedStyle, ev: Evaluator, f: F.Field)
    requires ev.length(e).Some? ==> f != F.Field.Bottom
    ensures F.Get(ApplyAttr(ElementStyleAttr.Bottom(e), cs, ev), f) == F.Get(cs, f)
  {
    if ev.length(e).Some? {
      ApplyOfBottom(e, cs, ev);
      F.SetBottomKeepsOthers(cs, ev.length(e).value, f);
    }
  }

  lemma ApplyOfWidth(e: Expr, cs: ComputedStyle, ev: Evaluator)
    requires ev.length(e).Some?
    ensures ApplyAttr(ElementStyleAttr.Width(e), cs, ev) == F.WithWidth(cs, ev.length(e).value)
  {
  }

  lemma FrameOfWidth(e: Expr, cs: ComputedStyle, ev: Evaluator, f: F.Field)
    requires ev.length(e).Some? ==> f != F.Field.Width
    ensures F.Get(ApplyAttr(ElementStyleAttr.Width(e), cs, ev), f) == F.Get(cs, f)
  {
    if ev.length(e).Some? {
      ApplyOfWidth(e, cs, ev);
      F.SetWidthKeepsOthers(cs, ev.length(e).value, f);
    }
  }

  lemma ApplyOfHeight(e: Expr, cs: ComputedStyle, ev: Evaluator)
    requires ev.length(e).Some?
    ensures ApplyAttr(ElementStyleAttr.Height(e), cs, ev) == F.WithHeight(cs, ev.length(e).value)
  {
  }

  lemma FrameOfHeight(e: Expr, cs: ComputedStyle, ev: Evaluator, f: F.Field)
    requires ev.length(e).Some? ==> f != F.Field.Height
    ensures F.Get(ApplyAttr(ElementStyleAttr.Height(e), cs, ev), f) == F.Get(cs, f)
  {
    if ev.length(e).Some? {
      ApplyOfHeight(e, cs, ev);
      F.SetHeightKeepsOthers(cs, ev.length(e).value, f);
    }
  }

  lemma ApplyOfMinWidth(e: Expr, cs: ComputedStyle, ev: Evaluator)
    requires ev.length(e).Some?
    ensures ApplyAttr(ElementStyleAttr.MinWidth(e), cs, ev) == F.WithMinWidth(cs, ev.length(e).value)
  {
  }

  lemma FrameOfMinWidth(e: Expr, cs: ComputedStyle, ev: Evaluator, f: F.Field)
    requires ev.length(e).Some? ==> f != F.Field.MinWidth
    ensures F.Get(ApplyAttr(ElementStyleAttr.MinWidth(e), cs, ev), f) == F.Get(cs, f)
  {
    if ev.length(e).Some? {
      ApplyOfMinWidth(e, cs, ev);
      F.SetMinWidthKeepsOthers(cs, ev.length(e).value, f);
    }
  }

  lemma ApplyOfMinHeight(e: Expr, cs: ComputedStyle, ev: Evaluator)
    requires ev.length(e).Some?
    ensures ApplyAttr(ElementStyleAttr.MinHeight(e), cs, ev) == F.WithMinHeight(cs, ev.length(e).value)
  {
  }

  lemma FrameOfMinHeight(e: Expr, cs: ComputedStyle, ev: Evaluator, f: F.Field)
    requires ev.length(e).Some? ==> f != F.Field.MinHeight
    ensures F.Get(ApplyAttr(ElementStyleAttr.MinHeight(e), cs, ev), f) == F.Get(cs, f)
  {
    if ev.length(e).Some? {
      ApplyOfMinHeight(e, cs, ev);
      F.SetMinHeightKeepsOthers(cs, ev.length(e).value, f);
    }
  }

  lemma ApplyOfMaxWidth(e: Expr, cs: ComputedStyle, ev: Evaluator)
    requires ev.length(e).Some?
    ensures ApplyAttr(ElementStyleAttr.MaxWidth(e), cs, ev) == F.WithMaxWidth(cs, ev.length(e).value)
  {
  }

  lemma FrameOfMaxWidth(e: Expr, cs: ComputedStyle, ev: Evaluator, f: F.Field)
    requires ev.length(e).Some? ==> f != F.Field.MaxWidth
    ensures F.Get(ApplyAttr(ElementStyleAttr.MaxWidth(e), cs, ev), f) == F.Get(cs, f)
  {
    if ev.length(e).Some? {
      ApplyOfMaxWidth(e, cs, ev);
      F.SetMaxWidthKeepsOthers(cs, ev.length(e).value, f);
    }
  }

  lemma ApplyOfMaxHeight(e: Expr, cs: ComputedStyle, ev: Evaluator)
    requires ev.length(e).Some?
    ensures ApplyAttr(ElementStyleAttr.MaxHeight(e), cs, ev) == F.WithMaxHeight(cs, ev.length(e).value)
  {
  }

  lemma FrameOfMaxHeight(e: Expr, cs: ComputedStyle, ev: Evaluator, f: F.Field)
    requires ev.length(e).Some? ==> f != F.Field.MaxHeight
    ensures F.Get(ApplyAttr(ElementStyleAttr.MaxHeight(e), cs, ev), f) == F.Get(cs, f)
  {
    if ev.length(e).Some? {
      ApplyOfMaxHeight(e, cs, ev);
      F.SetMaxHeightKeepsOthers(cs, ev.length(e).value, f);
    }
  }

  lemma ApplyOfMargin(e: Expr, cs: ComputedStyle, ev: Evaluator)
    requires ev.rect(e).Some?
    ensures ApplyAttr(ElementStyleAttr.Margin(e), cs, ev) == F.WithMargin(cs, ev.rect(e).value)
  {
  }

  lemma FrameOfMargin(e: Expr, cs: ComputedStyle, ev: Evaluator, f: F.Field)
    requires ev.rect(e).Some? ==> f != F.Field.MarginLeft && f != F.Field.MarginRight && f != F.Field.MarginTop && f != F.Field.MarginBottom
    ensures F.Get(ApplyAttr(ElementStyleAttr.Margin(e), cs, ev), f) == F.Get(cs, f)
  {
    if ev.rect(e).Some? {
      ApplyOfMargin(e, cs, ev);
      F.SetMarginKeepsOthers(cs, ev.rect(e).value, f);
    }
  }

  lemma ApplyOfMarginLeft(e: Expr, cs: ComputedStyle, ev: Evaluator)
    requires ev.length(e).Some?
    ensures ApplyAttr(ElementStyleAttr.MarginLeft(e), cs, ev) == F.WithMarginLeft(cs, ev.length(e).value)
  {
  }

  lemma FrameOfMarginLeft(e: Expr, cs: ComputedStyle, ev: Evaluator, f: F.Field)
    requires ev.length(e).Some? ==> f != F.Field.MarginLeft
    ensures F.Get(ApplyAttr(ElementStyleAttr.MarginLeft(e), cs, ev), f) == F.Get(cs, f)
  {
    if ev.length(e).Some? {
      ApplyOfMarginLeft(e, cs, ev);
      F.SetMarginLeftKeepsOthers(cs, ev.length(e).value, f);
    }
  }

  lemma ApplyOfMarginRight(e: Expr, cs: ComputedStyle, ev: Evaluator)
    requires ev.length(e).Some?
    ensures ApplyAttr(ElementStyleAttr.MarginRight(e), cs, ev) == F.WithMarginRight(cs, ev.length(e).value)
  {
  }

  lemma FrameOfMarginRight(e: Expr, cs: ComputedStyle, ev: Evaluator, f: F.Field)
    requires ev.length(e).Some? ==> f != F.Field.MarginRight
    ensures F.Get(ApplyAttr(ElementStyleAttr.MarginRight(e), cs, ev), f) == F.Get(cs, f)
  {
    if ev.length(e).Some? {
      ApplyOfMarginRight(e, cs, ev);
      F.SetMarginRightKeepsOthers(cs, ev.length(e).value, f);
    }
  }

  lemma ApplyOfMarginTop(e: Expr, cs: ComputedStyle, ev: Evaluator)
    requires ev.length(e).Some?
    ensures ApplyAttr(ElementStyleAttr.MarginTop(e), cs, ev) == F.WithMarginTop(cs, ev.length(e).value)
  {
  }

  lemma FrameOfMarginTop(e: Expr, cs: ComputedStyle, ev: Evaluator, f: F.Field)
    requires ev.length(e).Some? ==> f != F.Field.MarginTop
    ensures F.Get(ApplyAttr(ElementStyleAttr.MarginTop(e), cs, ev), f) == F.Get(cs, f)
  {
    if ev.length(e).Some? {
      ApplyOfMarginTop(e, cs, ev);
      F.SetMarginTopKeepsOthers(cs, ev.length(e).value, f);
    }
  }

  lemma ApplyOfMarginBottom(e: Expr, cs: ComputedStyle, ev: Evaluator)
    requires ev.length(e).Some?
    ensures ApplyAttr(ElementStyleAttr.MarginBottom(e), cs, ev) == F.WithMarginBottom(cs, ev.length(e).value)
  {
  }

  lemma FrameOfMarginBottom(e: Expr, cs: ComputedStyle, ev: Evaluator, f: F.Field)
    requires ev.length(e).Some? ==> f != F.Field.MarginBottom
    ensures F.Get(ApplyAttr(ElementStyleAttr.MarginBottom(e), cs, ev), f) == F.Get(cs, f)
  {
    if ev.length(e).Some? {
      ApplyOfMarginBottom(e, cs, ev);
      F.SetMarginBottomKeepsOthers(cs, ev.length(e).value, f);
    }
  }

  lemma ApplyOfPadding(e: Expr, cs: ComputedStyle, ev: Evaluator)
    requires ev.rect(e).Some?
    ensures ApplyAttr(ElementStyleAttr.Padding(e), cs, ev) == F.WithPadding(cs, ev.rect(e).value)
  {
  }

  lemma FrameOfPadding(e: Expr, cs: ComputedStyle, ev: Evaluator, f: F.Field)
    requires ev.rect(e).Some? ==> f != F.Field.PaddingLeft && f != F.Field.PaddingRight && f != F.Field.PaddingTop && f != F.Field.PaddingBottom
    ensures F.Get(ApplyAttr(ElementStyleAttr.Padding(e), cs, ev), f) == F.Get(cs, f)
  {
    if ev.rect(e).Some? {
      ApplyOfPadding(e, cs, ev);
      F.SetPaddingKeepsOthers(cs, ev.rect(e).value, f);
    }
  }

  lemma ApplyOfPaddingLeft(e: Expr, cs: ComputedStyle, ev: Evaluator)
    requires ev.length(e).Some?
    ensures ApplyAttr(ElementStyleAttr.PaddingLeft(e), cs, ev) == F.WithPaddingLeft(cs, ev.length(e).value)
  {
  }

  lemma FrameOfPaddingLeft(e: Expr, cs: ComputedStyle, ev: Evaluator, f: F.Field)
    requires ev.length(e).Some? ==> f != F.Field.PaddingLeft
    ensures F.Get(ApplyAttr(ElementStyleAttr.PaddingLeft(e), cs, ev), f) == F.Get(cs, f)
  {
    if ev.length(e).Some? {
      ApplyOfPaddingLeft(e, cs, ev);
      F.SetPaddingLeftKeepsOthers(cs, ev.length(e).value, f);
    }
  }

  lemma ApplyOfPaddingRight(e: Expr, cs: ComputedStyle, ev: Evaluator)
    requires ev.length(e).Some?
    ensures ApplyAttr(ElementStyleAttr.PaddingRight(e), cs, ev) == F.WithPaddingRight(cs, ev.length(e).value)
  {
  }

  lemma FrameOfPaddingRight(e: Expr, cs: ComputedStyle, ev: Evaluator, f: F.Field)
    requires ev.length(e).Some? ==> f != F.Field.PaddingRight
    ensures F.Get(ApplyAttr(ElementStyleAttr.PaddingRight(e), cs, ev), f) == F.Get(cs, f)
  {
    if ev.length(e).Some? {
      ApplyOfPaddingRight(e, cs, ev);
      F.SetPaddingRightKeepsOthers(cs, ev.length(e).value, f);
    }
  }

  lemma ApplyOfPaddingTop(e: Expr, cs: ComputedStyle, ev: Evaluator)
    requires ev.length(e).Some?
    ensures ApplyAttr(ElementStyleAttr.PaddingTop(e), cs, ev) == F.WithPaddingTop(cs, ev.length(e).value)
  {
  }

  lemma FrameOfPaddingTop(e: Expr, cs: ComputedStyle, ev: Evaluator, f: F.Field)
    requires ev.length(e).Some? ==> f != F.Field.PaddingTop
    ensures F.Get(ApplyAttr(ElementStyleAttr.PaddingTop(e), cs, ev), f) == F.Get(cs, f)
  {
    if ev.length(e).Some? {
      ApplyOfPaddingTop(e, cs, ev);
      F.SetPaddingTopKeepsOthers(cs, ev.length(e).value, f);
    }
  }

  lemma ApplyOfPaddingBottom(e: Expr, cs: ComputedStyle, ev: Evaluator)
    requires ev.length(e).Some?
    ensures ApplyAttr(ElementStyleAttr.PaddingBottom(e), cs, ev) == F.WithPaddingBottom(cs, ev.length(e).value)
  {
  }

  lemma FrameOfPaddingBottom(e: Expr, cs: ComputedStyle, ev: Evaluator, f: F.Field)
    requires ev.length(e).Some? ==> f != F.Field.PaddingBottom
    ensures F.Get(ApplyAttr(ElementStyleAttr.PaddingBottom(e), cs, ev), f) == F.Get(cs, f)
  {
    if ev.length(e).Some? {
      ApplyOfPaddingBottom(e, cs, ev);
      F.SetPaddingBottomKeepsOthers(cs, ev.length(e).value, f);
    }
  }

  lemma ApplyOfBorder(e: Expr, cs: ComputedStyle, ev: Evaluator)
    requires ev.rect(e).Some?
    ensures ApplyAttr(ElementStyleAttr.Border(e), cs, ev) == F.WithBorder(cs, ev.rect(e).value)
  {
  }

  lemma FrameOfBorder(e: Expr, cs: ComputedStyle, ev: Evaluator, f: F.Field)
    requires ev.rect(e).Some? ==> f != F.Field.BorderLeft && f != F.Field.BorderRight && f != F.Field.BorderTop && f != F.Field.BorderBottom
    ensures F.Get(ApplyAttr(ElementStyleAttr.Border(e), cs, ev), f) == F.Get(cs, f)
  {
    if ev.rect(e).Some? {
      ApplyOfBorder(e, cs, ev);
      F.SetBorderKeepsOthers(cs, ev.rect(e).value, f);
    }
  }

  lemma ApplyOfBorderLeft(e: Expr, cs: ComputedStyle, ev: Evaluator)
    requires ev.length(e).Some?
    ensures ApplyAttr(ElementStyleAttr.BorderLeft(e), cs, ev) == F.WithBorderLeft(cs, ev.length(e).value)
  {
  }

  lemma FrameOfBorderLeft(e: Expr, cs: ComputedStyle, ev: Evaluator, f: F.Field)
    requires ev.length(e).Some? ==> f != F.Field.BorderLeft
    ensures F.Get(ApplyAttr(ElementStyleAttr.BorderLeft(e), cs, ev), f) == F.Get(cs, f)
  {
    if ev.length(e).Some? {
      ApplyOfBorderLeft(e, cs, ev);
      F.SetBorderLeftKeepsOthers(cs, ev.length(e).value, f);
    }
  }

  lemma ApplyOfBorderRight(e: Expr, cs: ComputedStyle, ev: Evaluator)
    requires ev.length(e).Some?
    ensures ApplyAttr(ElementStyleAttr.BorderRight(e), cs, ev) == F.WithBorderRight(cs, ev.length(e).value)
  {
  }

  lemma FrameOfBorderRight(e: Expr, cs: ComputedStyle, ev: Evaluator, f: F.Field)
    requires ev.length(e).Some? ==> f != F.Field.BorderRight
    ensures F.Get(ApplyAttr(ElementStyleAttr.BorderRight(e), cs, ev), f) == F.Get(cs, f)
  {
    if ev.length(e).Some? {
      ApplyOfBorderRight(e, cs, ev);
      F.SetBorderRightKeepsOthers(cs, ev.length(e).value, f);
    }
  }

  lemma ApplyOfBorderTop(e: Expr, cs: ComputedStyle, ev: Evaluator)
    requires ev.length(e).Some?
    ensures ApplyAttr(ElementStyleAttr.BorderTop(e), cs, ev) == F.WithBorderTop(cs, ev.length(e).value)
  {
  }

  lemma FrameOfBorderTop(e: Expr, cs: ComputedStyle, ev: Evaluator, f: F.Field)
    requires ev.length(e).Some? ==> f != F.Field.BorderTop
    ensures F.Get(ApplyAttr(ElementStyleAttr.BorderTop(e), cs, ev), f) == F.Get(cs, f)
  {
    if ev.length(e).Some? {
      ApplyOfBorderTop(e, cs, ev);
      F.SetBorderTopKeepsOthers(cs, ev.length(e).value, f);
    }
  }

  lemma ApplyOfBorderBottom(e: Expr, cs: ComputedStyle, ev: Evaluator)
    requires ev.length(e).Some?
    ensures ApplyAttr(ElementStyleAttr.BorderBottom(e), cs, ev) == F.WithBorderBottom(cs, ev.length(e).value)
  {
  }

  lemma FrameOfBorderBottom(e: Expr, cs: ComputedStyle, ev: Evaluator, f: F.Field)
    requires ev.length(e).Some? ==> f != F.Field.BorderBottom
    ensures F.Get(ApplyAttr(ElementStyleAttr.BorderBottom(e), cs, ev), f) == F.Get(cs, f)
  {
    if ev.length(e).Some? {
      ApplyOfBorderBottom(e, cs, ev);
      F.SetBorderBottomKeepsOthers(cs, ev.length(e).value, f);
    }
  }

  lemma ApplyOfFlexDirection(e: Expr, cs: ComputedStyle, ev: Evaluator)
    requires ev.flexDirection(e).Some?
    ensures ApplyAttr(ElementStyleAttr.FlexDirection(e), cs, ev) == F.WithFlexDirection(cs, ev.flexDirection(e).value)
  {
  }

  lemma FrameOfFlexDirection(e: Expr, cs: ComputedStyle, ev: Evaluator, f: F.Field)
    requires ev.flexDirection(e).Some? ==> f != F.Field.FlexDirection
    ensures F.Get(ApplyAttr(ElementStyleAttr.FlexDirection(e), cs, ev), f) == F.Get(cs, f)
  {
    if ev.flexDirection(e).Some? {
      ApplyOfFlexDirection(e, cs, ev);
      F.SetFlexDirectionKeepsOthers(cs, ev.flexDirection(e).value, f);
    }
  }

  lemma ApplyOfFlexWrap(e: Expr, cs: ComputedStyle, ev: Evaluator)
    requires ev.flexWrap(e).Some?
    ensures ApplyAttr(ElementStyleAttr.FlexWrap(e), cs, ev) == F.WithFlexWrap(cs, ev.flexWrap(e).value)
  {
  }

  lemma FrameOfFlexWrap(e: Expr, cs: ComputedStyle, ev: Evaluator, f: F.Field)
    requires ev.flexWrap(e).Some? ==> f != F.Field.FlexWrap
    ensures F.Get(ApplyAttr(ElementStyleAttr.FlexWrap(e), cs, ev), f) == F.Get(cs, f)
  {
    if ev.flexWrap(e).Some? {
      ApplyOfFlexWrap(e, cs, ev);
      F.SetFlexWrapKeepsOthers(cs, ev.flexWrap(e).value, f);
    }
  }

  lemma ApplyOfFlexGrow(e: Expr, cs: ComputedStyle, ev: Evaluator)
    requires ev.scalar(e).Some?
    ensures ApplyAttr(ElementStyleAttr.FlexGrow(e), cs, ev) == F.WithFlexGrow(cs, ev.scalar(e).value)
  {
  }

  lemma FrameOfFlexGrow(e: Expr, cs: ComputedStyle, ev: Evaluator, f: F.Field)
    requires ev.scalar(e).Some? ==> f != F.Field.FlexGrow
    ensures F.Get(ApplyAttr(ElementStyleAttr.FlexGrow(e), cs, ev), f) == F.Get(cs, f)
  {
    if ev.scalar(e).Some? {
      ApplyOfFlexGrow(e, cs, ev);
      F.SetFlexGrowKeepsOthers(cs, ev.scalar(e).value, f);
    }
  }

  lemma ApplyOfFlexShrink(e: Expr, cs: ComputedStyle, ev: Evaluator)
    requires ev.scalar(e).Some?
    ensures ApplyAttr(ElementStyleAttr.FlexShrink(e), cs, ev) == F.WithFlexShrink(cs, ev.scalar(e).value)
  {
  }

  lemma FrameOfFlexShrink(e: Expr, cs: ComputedStyle, ev: Evaluator, f: F.Field)
    requires ev.scalar(e).Some? ==> f != F.Field.FlexShrink
    ensures F.Get(ApplyAttr(ElementStyleAttr.FlexShrink(e), cs, ev), f) == F.Get(cs, f)
  {
    if ev.scalar(e).Some? {
      ApplyOfFlexShrink(e, cs, ev);
      F.SetFlexShrinkKeepsOthers(cs, ev.scalar(e).value, f);
    }
  }

  lemma ApplyOfFlexBasis(e: Expr, cs: ComputedStyle, ev: Evaluator)
    requires ev.length(e).Some?
    ensures ApplyAttr(ElementStyleAttr.FlexBasis(e), cs, ev) == F.WithFlexBasis(cs, ev.length(e).value)
  {
  }

  lemma FrameOfFlexBasis(e: Expr, cs: ComputedStyle, ev: Evaluator, f: F.Field)
    requires ev.length(e).Some? ==> f != F.Field.FlexBasis
    ensures F.Get(ApplyAttr(ElementStyleAttr.FlexBasis(e), cs, ev), f) == F.Get(cs, f)
  {
    if ev.length(e).Some? {
      ApplyOfFlexBasis(e, cs, ev);
      F.SetFlexBasisKeepsOthers(cs, ev.length(e).value, f);
    }
  }

  lemma ApplyOfRowGap(e: Expr, cs: ComputedStyle, ev: Evaluator)
    requires ev.length(e).Some?
    ensures ApplyAttr(ElementStyleAttr.RowGap(e), cs, ev) == F.WithRowGap(cs, ev.length(e).value)
  {
  }

  lemma FrameOfRowGap(e: Expr, cs: ComputedStyle, ev: Evaluator, f: F.Field)
    requires ev.length(e).Some? ==> f != F.Field.RowGap
    ensures F.Get(ApplyAttr(ElementStyleAttr.RowGap(e), cs, ev), f) == F.Get(cs, f)
  {
    if ev.length(e).Some? {
      ApplyOfRowGap(e, cs, ev);
      F.SetRowGapKeepsOthers(cs, ev.length(e).value, f);
    }
  }

  lemma ApplyOfColumnGap(e: Expr, cs: ComputedStyle, ev: Evaluator)
    requires ev.length(e).Some?
    ensures ApplyAttr(ElementStyleAttr.ColumnGap(e), cs, ev) == F.WithColumnGap(cs, ev.length(e).value)
  {
  }

  lemma FrameOfColumnGap(e: Expr, cs: ComputedStyle, ev: Evaluator, f: F.Field)
    requires ev.length(e).Some? ==> f != F.Field.ColumnGap
    ensures F.Get(ApplyAttr(ElementStyleAttr.ColumnGap(e), cs, ev), f) == F.Get(cs, f)
  {
    if ev.length(e).Some? {
      ApplyOfColumnGap(e, cs, ev);
      F.SetColumnGapKeepsOthers(cs, ev.length(e).value, f);
    }
  }

  lemma ApplyOfGap(e: Expr, cs: ComputedStyle, ev: Evaluator)
    requires ev.length(e).Some?
    ensures ApplyAttr(ElementStyleAttr.Gap(e), cs, ev) == F.WithGaps(cs, ev.length(e).value)
  {
  }

  lemma FrameOfGap(e: Expr, cs: ComputedStyle, ev: Evaluator, f: F.Field)
    requires ev.length(e).Some? ==> f != F.Field.RowGap && f != F.Field.ColumnGap
    ensures F.Get(ApplyAttr(ElementStyleAttr.Gap(e), cs, ev), f) == F.Get(cs, f)
  {
    if ev.length(e).Some? {
      ApplyOfGap(e, cs, ev);
      F.SetGapsKeepsOthers(cs, ev.length(e).value, f);
    }
  }

  lemma ApplyOfAlignItems(e: Expr, cs: ComputedStyle, ev: Evaluator)
    requires ev.alignItems(e).Some?
    ensures ApplyAttr(ElementStyleAttr.AlignItems(e), cs, ev) == F.WithAlignItems(cs, ev.alignItems(e).value)
  {
  }

  lemma FrameOfAlignItems(e: Expr, cs: ComputedStyle, ev: Evaluator, f: F.Field)
    requires ev.alignItems(e).Some? ==> f != F.Field.AlignItems
    ensures F.Get(ApplyAttr(ElementStyleAttr.AlignItems(e), cs, ev), f) == F.Get(cs, f)
  {
    if ev.alignItems(e).Some? {
      ApplyOfAlignItems(e, cs, ev);
      F.SetAlignItemsKeepsOthers(cs, ev.alignItems(e).value, f);
    }
  }

  lemma ApplyOfAlignSelf(e: Expr, cs: ComputedStyle, ev: Evaluator)
    requires ev.alignSelf(e).Some?
    ensures ApplyAttr(ElementStyleAttr.AlignSelf(e), cs, ev) == F.WithAlignSelf(cs, ev.alignSelf(e).value)
  {
  }

  lemma FrameOfAlignSelf(e: Expr, cs: ComputedStyle, ev: Evaluator, f: F.Field)
    requires ev.alignSelf(e).Some? ==> f != F.Field.AlignSelf
    ensures F.Get(ApplyAttr(ElementStyleAttr.AlignSelf(e), cs, ev), f) == F.Get(cs, f)
  {
    if ev.alignSelf(e).Some? {
      ApplyOfAlignSelf(e, cs, ev);
      F.SetAlignSelfKeepsOthers(cs, ev.alignSelf(e).value, f);
    }
  }

  lemma ApplyOfAlignContent(e: Expr, cs: ComputedStyle, ev: Evaluator)
    requires ev.alignContent(e).Some?
    ensures ApplyAttr(ElementStyleAttr.AlignContent(e), cs, ev) == F.WithAlignContent(cs, ev.alignContent(e).value)
  {
  }

  lemma FrameOfAlignContent(e: Expr, cs: ComputedStyle, ev: Evaluator, f: F.Field)
    requires ev.alignContent(e).Some? ==> f != F.Field.AlignContent
    ensures F.Get(ApplyAttr(ElementStyleAttr.AlignContent(e), cs, ev), f) == F.Get(cs, f)
  {
    if ev.alignContent(e).Some? {
      ApplyOfAlignContent(e, cs, ev);
      F.SetAlignContentKeepsOthers(cs, ev.alignContent(e).value, f);
    }
  }

  lemma ApplyOfJustifyItems(e: Expr, cs: ComputedStyle, ev: Evaluator)
    requires ev.justifyItems(e).Some?
    ensures ApplyAttr(ElementStyleAttr.JustifyItems(e), cs, ev) == F.WithJustifyItems(cs, ev.justifyItems(e).value)
  {
  }

  lemma FrameOfJustifyItems(e: Expr, cs: ComputedStyle, ev: Evaluator, f: F.Field)
    requires ev.justifyItems(e).Some? ==> f != F.Field.JustifyItems
    ensures F.Get(ApplyAttr(ElementStyleAttr.JustifyItems(e), cs, ev), f) == F.Get(cs, f)
  {
    if ev.justifyItems(e).Some? {
      ApplyOfJustifyItems(e, cs, ev);
      F.SetJustifyItemsKeepsOthers(cs, ev.justifyItems(e).value, f);
    }
  }

  lemma ApplyOfJustifySelf(e: Expr, cs: ComputedStyle, ev: Evaluator)
    requires ev.justifySelf(e).Some?
    ensures ApplyAttr(ElementStyleAttr.JustifySelf(e), cs, ev) == F.WithJustifySelf(cs, ev.justifySelf(e).value)
  {
  }

  lemma FrameOfJustifySelf(e: Expr, cs: ComputedStyle, ev: Evaluator, f: F.Field)
    requires ev.justifySelf(e).Some? ==> f != F.Field.JustifySelf
    ensures F.Get(ApplyAttr(ElementStyleAttr.JustifySelf(e), cs, ev), f) == F.Get(cs, f)
  {
    if ev.justifySelf(e).Some? {
      ApplyOfJustifySelf(e, cs, ev);
      F.SetJustifySelfKeepsOthers(cs, ev.justifySelf(e).value, f);
    }
  }

  lemma ApplyOfJustifyContent(e: Expr, cs: ComputedStyle, ev: Evaluator)
    requires ev.justifyContent(e).Some?
    ensures ApplyAttr(ElementStyleAttr.JustifyContent(e), cs, ev) == F.WithJustifyContent(cs, ev.justifyContent(e).value)
  {
  }

  lemma FrameOfJustifyContent(e: Expr, cs: ComputedStyle, ev: Evaluator, f: F.Field)
    requires ev.justifyContent(e).Some? ==> f != F.Field.JustifyContent
    ensures F.Get(ApplyAttr(ElementStyleAttr.JustifyContent(e), cs, ev), f) == F.Get(cs, f)
  {
    if ev.justifyContent(e).Some? {
      ApplyOfJustifyContent(e, cs, ev);
      F.SetJustifyContentKeepsOthers(cs, ev.justifyContent(e).value, f);
    }
  }


  // ---------------------------------------------------------------------------------------------
  // Merging a sequence of attributes.

  /** `attrs` merged into `cs` in forward order: each attribute is applied to the result of those before it. */
  function Merge(attrs: seq<ElementStyleAttr>, cs: ComputedStyle, ev: Evaluator): ComputedStyle
    decreases |attrs|
  {
    if attrs == [] then cs else ApplyAttr(attrs[|attrs| - 1], Merge(attrs[..|attrs| - 1], cs, ev), ev)
  }

  /** The merge loop: overwrite `computed` with each attribute in turn. */
  method ApplyAttrsTo(attrs: seq<ElementStyleAttr>, computed: ComputedStyle, ev: Evaluator) returns (out: ComputedStyle)
    ensures out == Merge(attrs, computed, ev)
  {
    out := computed;
    var i := 0;
    while i < |attrs|
      invariant 0 <= i <= |attrs|
      invariant out == Merge(attrs[..i], computed, ev)
    {
      assert attrs[..i + 1][..i] == attrs[..i];
      out := ApplyAttr(attrs[i], out, ev);
      i := i + 1;
    }
    assert attrs[..i] == attrs;
  }

  /** Merge a whole element style into `computed`. */
  method ApplyTo(style: ElementStyle, computed: ComputedStyle, ev: Evaluator) returns (out: ComputedStyle)
    ensures out == Merge(style.attrs, computed, ev)
  {
    out := ApplyAttrsTo(style.attrs, computed, ev);
  }

  /** Merging a concatenation is merging the second part into the result of the first. */
  lemma {:induction false} MergeAppend(a: seq<ElementStyleAttr>, b: seq<ElementStyleAttr>, cs: ComputedStyle, ev: Evaluator)
    ensures Merge(a + b, cs, ev) == Merge(b, Merge(a, cs, ev), ev)
    decreases |b|
  {
    if b == [] {
      assert a + b == a;
    } else {
      var front := b[..|b| - 1];
      assert (a + b)[..|a + b| - 1] == a + front;
      assert (a + b)[|a + b| - 1] == b[|b| - 1];
      MergeAppend(a, front, cs, ev);
    }
  }

  /** Merging a single attribute is applying it. */
  lemma MergeSingle(attr: ElementStyleAttr, cs: ComputedStyle, ev: Evaluator)
    ensures Merge([attr], cs, ev) == ApplyAttr(attr, cs, ev)
  {
    assert [attr][..0] == [];
  }

  /** An attribute whose value does not evaluate is skipped, and the attributes after it still apply. */
  lemma SkipFailedAttr(attrs: seq<ElementStyleAttr>, i: nat, cs: ComputedStyle, ev: Evaluator)
    requires i < |attrs| && !Evaluates(attrs[i], ev)
    ensures Merge(attrs, cs, ev) == Merge(attrs[..i] + attrs[i + 1..], cs, ev)
  {
    var before := Merge(attrs[..i], cs, ev);
    assert attrs == attrs[..i] + ([attrs[i]] + attrs[i + 1..]);
    MergeAppend(attrs[..i], [attrs[i]] + attrs[i + 1..], cs, ev);
    MergeAppend([attrs[i]], attrs[i + 1..], before, ev);
    MergeSingle(attrs[i], before, ev);
    FailedAttrIsNoOp(attrs[i], before, ev);
    MergeAppend(attrs[..i], attrs[i + 1..], cs, ev);
  }

  /** A field that no attribute writes keeps the value it had before the merge. */
  lemma {:induction false} MergeKeepsUnwritten(attrs: seq<ElementStyleAttr>, f: F.Field, cs: ComputedStyle, ev: Evaluator)
    requires forall j :: 0 <= j < |attrs| ==> !Writes(attrs[j], ev, f)
    ensures F.Get(Merge(attrs, cs, ev), f) == F.Get(cs, f)
    decreases |attrs|
  {
    if attrs != [] {
      var n := |attrs| - 1;
      MergeKeepsUnwritten(attrs[..n], f, cs, ev);
      ApplyAttrFrame(attrs[n], Merge(attrs[..n], cs, ev), ev, f);
    }
  }

  /**
   * Last write wins: when `attrs[i]` puts `v` into field `f` whatever the style it meets, and no
   * later attribute writes `f`, the merged style holds `v` in `f`.
   */
  lemma {:induction false} LastWriteWins(
    attrs: seq<ElementStyleAttr>, i: nat, f: F.Field, v: F.Value, cs: ComputedStyle, ev: Evaluator)
    requires i < |attrs|
    requires forall c :: F.Get(ApplyAttr(attrs[i], c, ev), f) == v
    requires forall j :: i < j < |attrs| ==> !Writes(attrs[j], ev, f)
    ensures F.Get(Merge(attrs, cs, ev), f) == v
  {
    var before := Merge(attrs[..i], cs, ev);
    assert attrs == attrs[..i + 1] + attrs[i + 1..];
    assert attrs[..i + 1][..i] == attrs[..i];
    MergeAppend(attrs[..i + 1], attrs[i + 1..], cs, ev);
    MergeKeepsUnwritten(attrs[i + 1..], f, Merge(attrs[..i + 1], cs, ev), ev);
  }

  // ---------------------------------------------------------------------------------------------
  // What particular attributes do.

  /** A composite `Overflow` writes both axes; a later `OverflowX` replaces only the horizontal one. */
  lemma OverflowThenOverflowX(e1: Expr, e2: Expr, a: OverflowAxis, b: OverflowAxis, cs: ComputedStyle, ev: Evaluator)
    requires ev.overflow(e1) == Some(a) && ev.overflow(e2) == Some(b)
    ensures ApplyAttr(ElementStyleAttr.Overflow(e1), cs, ev).style.overflow == Ui.Overflow(a, a)
    ensures Merge([ElementStyleAttr.Overflow(e1), OverflowX(e2)], cs, ev).style.overflow == Ui.Overflow(b, a)
  {
    assert [ElementStyleAttr.Overflow(e1), OverflowX(e2)][..1] == [ElementStyleAttr.Overflow(e1)];
    MergeSingle(ElementStyleAttr.Overflow(e1), cs, ev);
  }

  /** `Gap` writes the row gap and the column gap with the same value. */
  lemma GapWritesBothGaps(e: Expr, v: Val, cs: ComputedStyle, ev: Evaluator)
    requires ev.length(e) == Some(v)
    ensures ApplyAttr(Gap(e), cs, ev).style.rowGap == v && ApplyAttr(Gap(e), cs, ev).style.columnGap == v
  {
  }

  /** `RowGap` writes only the row gap. */
  lemma RowGapWritesOneGap(e: Expr, v: Val, cs: ComputedStyle, ev: Evaluator)
    requires ev.length(e) == Some(v)
    ensures ApplyAttr(RowGap(e), cs, ev).style.rowGap == v
    ensures ApplyAttr(RowGap(e), cs, ev).style.columnGap == cs.style.columnGap
  {
  }

  /** `ColumnGap` writes only the column gap. */
  lemma ColumnGapWritesOneGap(e: Expr, v: Val, cs: ComputedStyle, ev: Evaluator)
    requires ev.length(e) == Some(v)
    ensures ApplyAttr(ColumnGap(e), cs, ev).style.columnGap == v
    ensures ApplyAttr(ColumnGap(e), cs, ev).style.rowGap == cs.style.rowGap
  {
  }

  /** The background image needs no evaluation: it always overwrites the image, also with `None`. */
  lemma BackgroundImageOverwrites(image: Option<Handle>, cs: ComputedStyle, ev: Evaluator)
    ensures ApplyAttr(BackgroundImage(image), cs, ev).image == image
    ensures Evaluates(BackgroundImage(image), ev)
  {
  }

  /** A z-index that evaluates is stored as present; one that does not leaves the old z-index. */
  lemma ZIndexIsPresent(e: Expr, cs: ComputedStyle, ev: Evaluator)
    ensures ev.int32(e).Some? ==> ApplyAttr(ZIndex(e), cs, ev).zIndex == Some(ev.int32(e).value)
    ensures ev.int32(e).None? ==> ApplyAttr(ZIndex(e), cs, ev).zIndex == cs.zIndex
  {
  }

  /** A side setter writes that side of the rect and keeps the other three. */
  lemma MarginLeftWritesOneSide(e: Expr, v: Val, cs: ComputedStyle, ev: Evaluator)
    requires ev.length(e) == Some(v)
    ensures ApplyAttr(MarginLeft(e), cs, ev).style.margin == UiRect(v, cs.style.margin.right, cs.style.margin.top, cs.style.margin.bottom)
  {
  }

  // ---------------------------------------------------------------------------------------------
  // Building attributes from a structured style document.

  /** Why a document's members could not be turned into attributes. */
  datatype FromAstError =
    | InvalidProperty(key: string)
    | InvalidBackgroundImage(value: Expr)

  /**
   * The attribute one member builds: the property names form a closed schema, and a background
   * image must be an asset path (loaded through `load`), null or the identifier `none`.
   */
  function AttrFor(key: string, value: Expr, load: string -> Handle): Result<ElementStyleAttr, FromAstError> {
    match key
    case "background_image" =>
      (match value
       case AssetPath(path) => Ok(BackgroundImage(Some(load(path))))
       case Null => Ok(BackgroundImage(None))
       case Ident(id) => if id == "none" then Ok(BackgroundImage(None)) else Err(InvalidBackgroundImage(value))
       case Other(_) => Err(InvalidBackgroundImage(value)))
    case "background_color" => Ok(BackgroundColor(value))
    case "border_color" => Ok(BorderColor(value))
    case "color" => Ok(ElementStyleAttr.Color(value))
    case "z_index" => Ok(ZIndex(value))
    case "display" => Ok(Display(value))
    case "position" => Ok(Position(value))
    case "overflow_x" => Ok(OverflowX(value))
    case "overflow_y" => Ok(OverflowY(value))
    case "overflow" => Ok(ElementStyleAttr.Overflow(value))
    case "direction" => Ok(Direction(value))
    case "left" => Ok(Left(value))
    case "right" => Ok(Right(value))
    case "top" => Ok(Top(value))
    case "bottom" => Ok(Bottom(value))
    case "width" => Ok(Width(value))
    case "height" => Ok(Height(value))
    case "min_width" => Ok(MinWidth(value))
    case "min_height" => Ok(MinHeight(value))
    case "max_width" => Ok(MaxWidth(value))
    case "max_height" => Ok(MaxHeight(value))
    case "margin" => Ok(Margin(value))
    case "margin_left" => Ok(MarginLeft(value))
    case "margin_right" => Ok(MarginRight(value))
    case "margin_top" => Ok(MarginTop(value))
    case "margin_bottom" => Ok(MarginBottom(value))
    case "padding" => Ok(Padding(value))
    case "padding_left" => Ok(PaddingLeft(value))
    case "padding_right" => Ok(PaddingRight(value))
    case "padding_top" => Ok(PaddingTop(value))
    case "padding_bottom" => Ok(PaddingBottom(value))
    case "border" => Ok(Border(value))
    case "border_left" => Ok(BorderLeft(value))
    case "border_right" => Ok(BorderRight(value))
    case "border_top" => Ok(BorderTop(value))
    case "border_bottom" => Ok(BorderBottom(value))
    case "flex_direction" => Ok(FlexDirection(value))
    case "flex_wrap" => Ok(FlexWrap(value))
    case "flex_grow" => Ok(FlexGrow(value))
    case "flex_shrink" => Ok(FlexShrink(value))
    case "flex_basis" => Ok(FlexBasis(value))
    case "row_gap" => Ok(RowGap(value))
    case "column_gap" => Ok(ColumnGap(value))
    case "gap" => Ok(Gap(value))
    case "align_items" => Ok(AlignItems(value))
    case "align_self" => Ok(AlignSelf(value))
    case "align_content" => Ok(AlignContent(value))
    case "justify_items" => Ok(JustifyItems(value))
    case "justify_self" => Ok(JustifySelf(value))
    case "justify_content" => Ok(JustifyContent(value))
    case _ => Err(InvalidProperty(key))
  }

  /** The property name of an attribute. */
  function Key(attr: ElementStyleAttr): string {
    match attr
    case BackgroundImage(_) => "background_image"
    case BackgroundColor(_) => "background_color"
    case BorderColor(_) => "border_color"
    case Color(_) => "color"
    case ZIndex(_) => "z_index"
    case Display(_) => "display"
    case Position(_) => "position"
    case OverflowX(_) => "overflow_x"
    case OverflowY(_) => "overflow_y"
    case Overflow(_) => "overflow"
    case Direction(_) => "direction"
    case Left(_) => "left"
    case Right(_) => "right"
    case Top(_) => "top"
    case Bottom(_) => "bottom"
    case Width(_) => "width"
    case Height(_) => "height"
    case MinWidth(_) => "min_width"
    case MinHeight(_) => "min_height"
    case MaxWidth(_) => "max_width"
    case MaxHeight(_) => "max_height"
    case Margin(_) => "margin"
    case MarginLeft(_) => "margin_left"
    case MarginRight(_) => "margin_right"
    case MarginTop(_) => "margin_top"
    case MarginBottom(_) => "margin_bottom"
    case Padding(_) => "padding"
    case PaddingLeft(_) => "padding_left"
    case PaddingRight(_) => "padding_right"
    case PaddingTop(_) => "padding_top"
    case PaddingBottom(_) => "padding_bottom"
    case Border(_) => "border"
    case BorderLeft(_) => "border_left"
    case BorderRight(_) => "border_right"
    case BorderTop(_) => "border_top"
    case BorderBottom(_) => "border_bottom"
    case FlexDirection(_) => "flex_direction"
    case FlexWrap(_) => "flex_wrap"
    case FlexGrow(_) => "flex_grow"
    case FlexShrink(_) => "flex_shrink"
    case FlexBasis(_) => "flex_basis"
    case RowGap(_) => "row_gap"
    case ColumnGap(_) => "column_gap"
    case Gap(_) => "gap"
    case AlignItems(_) => "align_items"
    case AlignSelf(_) => "align_self"
    case AlignContent(_) => "align_content"
    case JustifyItems(_) => "justify_items"
    case JustifySelf(_) => "justify_self"
    case JustifyContent(_) => "justify_content"
  }

  /** The property names a structured style accepts. */
  predicate IsPropertyName(key: string) {
    key in {
    "background_image",
    "background_color", "border_color", "color", "z_index", "display", "position", "overflow_x",
    "overflow_y", "overflow", "direction", "left", "right", "top", "bottom", "width", "height",
    "min_width", "min_height", "max_width", "max_height", "margin", "margin_left", "margin_right",
    "margin_top", "margin_bottom", "padding", "padding_left", "padding_right", "padding_top",
    "padding_bottom", "border", "border_left", "border_right", "border_top", "border_bottom",
    "flex_direction", "flex_wrap", "flex_grow", "flex_shrink", "flex_basis", "row_gap",
    "column_gap", "gap", "align_items", "align_self", "align_content", "justify_items",
    "justify_self", "justify_content"}
  }

  /** A key outside the schema is rejected as an invalid property naming that key. */
  lemma UnknownPropertyRejected(key: string, value: Expr, load: string -> Handle)
    requires !IsPropertyName(key)
    ensures AttrFor(key, value, load) == Err(InvalidProperty(key))
  {
  }

  /** Every key in the schema other than the background image builds an attribute, whatever its value. */
  lemma KnownPropertyAccepted(key: string, value: Expr, load: string -> Handle)
    requires IsPropertyName(key) && key != "background_image"
    ensures AttrFor(key, value, load).Ok?
  {
  }

  /** A background image is an asset path, which is loaded, or null or `none`, which clear it; nothing else. */
  lemma BackgroundImageValues(value: Expr, load: string -> Handle)
    ensures AttrFor("background_image", value, load).Ok? <==> value.AssetPath? || value.Null? || value == Ident("none")
    ensures value.AssetPath? ==> AttrFor("background_image", value, load) == Ok(BackgroundImage(Some(load(value.path))))
    ensures value.Null? || value == Ident("none") ==> AttrFor("background_image", value, load) == Ok(BackgroundImage(None))
  {
  }

  /** An invalid-property rejection names the member's own key, and that key is outside the schema. */
  lemma RejectionNamesKey(key: string, value: Expr, load: string -> Handle)
    ensures AttrFor(key, value, load).Err? && AttrFor(key, value, load).error.InvalidProperty?
            ==> AttrFor(key, value, load).error.key == key && !IsPropertyName(key)
  {
    if !IsPropertyName(key) {
      UnknownPropertyRejected(key, value, load);
    } else if key != "background_image" {
      KnownPropertyAccepted(key, value, load);
    }
  }

  /**
   * Every expression-backed attribute is what its own property name builds from its expression:
   * the schema names each attribute, under exactly the key `Key` gives.
   */
  lemma AttrForOfKey(attr: ElementStyleAttr, load: string -> Handle)
    requires !attr.BackgroundImage?
    ensures AttrFor(Key(attr), attr.e, load) == Ok(attr)
  {
    if attr.BackgroundColor? || attr.BorderColor? || attr.Color? || attr.ZIndex? || attr.Display? ||
       attr.Position? || attr.OverflowX? || attr.OverflowY? || attr.Overflow? || attr.Direction? ||
       attr.Left? || attr.Right? {
      AttrForOfKeyGroup0(attr, load);
    } else if attr.Top? || attr.Bottom? || attr.Width? || attr.Height? || attr.MinWidth? ||
       attr.MinHeight? || attr.MaxWidth? || attr.MaxHeight? || attr.Margin? || attr.MarginLeft? ||
       attr.MarginRight? || attr.MarginTop? {
      AttrForOfKeyGroup1(attr, load);
    } else if attr.MarginBottom? || attr.Padding? || attr.PaddingLeft? || attr.PaddingRight? ||
       attr.PaddingTop? || attr.PaddingBottom? || attr.Border? || attr.BorderLeft? {
      AttrForOfKeyGroup2(attr, load);
    } else if attr.BorderRight? || attr.BorderTop? || attr.BorderBottom? || attr.FlexDirection? ||
       attr.FlexWrap? || attr.FlexGrow? {
      AttrForOfKeyGroup3(attr, load);
    } else if attr.FlexShrink? || attr.FlexBasis? || attr.RowGap? || attr.ColumnGap? || attr.Gap? ||
       attr.AlignItems? {
      AttrForOfKeyGroup4(attr, load);
    } else {
      AttrForOfKeyGroup5(attr, load);
    }
  }

  lemma AttrForOfKeyGroup0(attr: ElementStyleAttr, load: string -> Handle)
    requires attr.BackgroundColor? || attr.BorderColor? || attr.Color? || attr.ZIndex? || attr.Display? ||
             attr.Position? || attr.OverflowX? || attr.OverflowY? || attr.Overflow? || attr.Direction? ||
             attr.Left? || attr.Right?
    ensures AttrFor(Key(attr), attr.e, load) == Ok(attr)
  {
  }

  lemma AttrForOfKeyGroup1(attr: ElementStyleAttr, load: string -> Handle)
    requires attr.Top? || attr.Bottom? || attr.Width? || attr.Height? || attr.MinWidth? ||
             attr.MinHeight? || attr.MaxWidth? || attr.MaxHeight? || attr.Margin? || attr.MarginLeft? ||
             attr.MarginRight? || attr.MarginTop?
    ensures AttrFor(Key(attr), attr.e, load) == Ok(attr)
  {
  }

  lemma AttrForOfKeyGroup2(attr: ElementStyleAttr, load: string -> Handle)
    requires attr.MarginBottom? || attr.Padding? || attr.PaddingLeft? || attr.PaddingRight? ||
             attr.PaddingTop? || attr.PaddingBottom? || attr.Border? || attr.BorderLeft?
    ensures AttrFor(Key(attr), attr.e, load) == Ok(attr)
  {
  }

  lemma AttrForOfKeyGroup3(attr: ElementStyleAttr, load: string -> Handle)
    requires attr.BorderRight? || attr.BorderTop? || attr.BorderBottom? || attr.FlexDirection? ||
             attr.FlexWrap? || attr.FlexGrow?
    ensures AttrFor(Key(attr), attr.e, load) == Ok(attr)
  {
  }

  lemma AttrForOfKeyGroup4(attr: ElementStyleAttr, load: string -> Handle)
    requires attr.FlexShrink? || attr.FlexBasis? || attr.RowGap? || attr.ColumnGap? || attr.Gap? ||
             attr.AlignItems?
    ensures AttrFor(Key(attr), attr.e, load) == Ok(attr)
  {
  }

  lemma AttrForOfKeyGroup5(attr: ElementStyleAttr, load: string -> Handle)
    requires attr.AlignSelf? || attr.AlignContent? || attr.JustifyItems? || attr.JustifySelf? ||
             attr.JustifyContent?
    ensures AttrFor(Key(attr), attr.e, load) == Ok(attr)
  {
  }

  /**
   * Build the attributes of a structured style document, one per member, in an unspecified order;
   * stop at the first member that builds none. `keys[i]` is the member that built `attrs[i]`.
   */
  method FromAst(members: map<string, Expr>, load: string -> Handle)
    returns (r: Result<ElementStyle, FromAstError>, ghost keys: seq<string>)
    ensures r.Ok? <==> forall k :: k in members ==> AttrFor(k, members[k], load).Ok?
    ensures r.Err? ==> exists k :: k in members && AttrFor(k, members[k], load) == Err(r.error)
    ensures r.Err? && r.error.InvalidProperty? ==> r.error.key in members && !IsPropertyName(r.error.key)
    ensures (exists k :: k in members && !IsPropertyName(k)) ==> r.Err?
    ensures r.Ok? ==> |r.value.attrs| == |keys| == |members|
    ensures r.Ok? ==> forall i :: 0 <= i < |keys| ==> keys[i] in members
    ensures r.Ok? ==> forall k :: k in members ==> k in keys
    ensures r.Ok? ==> forall i, j :: 0 <= i < j < |keys| ==> keys[i] != keys[j]
    ensures r.Ok? ==> forall i :: 0 <= i < |keys| ==> AttrFor(keys[i], members[keys[i]], load) == Ok(r.value.attrs[i])
  {
    var attrs: seq<ElementStyleAttr> := [];
    keys := [];
    var remaining := members.Keys;
    while remaining != {}
      invariant remaining <= members.Keys
      invariant |attrs| == |keys|
      invariant forall i :: 0 <= i < |keys| ==> keys[i] in members && keys[i] !in remaining
      invariant forall k :: k in members && k !in remaining ==> k in keys
      invariant forall i, j :: 0 <= i < j < |keys| ==> keys[i] != keys[j]
      invariant forall i :: 0 <= i < |keys| ==> AttrFor(keys[i], members[keys[i]], load) == Ok(attrs[i])
      invariant |keys| + |remaining| == |members|
      decreases remaining
    {
      var key :| key in remaining;
      var built := AttrFor(key, members[key], load);
      if built.Err? {
        RejectionNamesKey(key, members[key], load);
        return Err(built.error), keys;
      }
      attrs := attrs + [built.value];
      keys := keys + [key];
      remaining := remaining - {key};
    }
    forall k | k in members && !IsPropertyName(k) {
      UnknownPropertyRejected(k, members[k], load);
    }
    return Ok(ElementStyle(attrs)), keys;
  }
}
