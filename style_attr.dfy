/**
 * String-grammar style attributes: the attributes an XML style sheet carries, and the write of
 * one attribute into a computed style. Expression-backed attributes are converted at apply
 * time and change nothing when the conversion fails; enumeration, length and grid attributes
 * hold their value directly.
 */
module StyleAttrs {
  import opened Wrappers
  import opened Ui
  import opened Exprs
  import opened Computed
  import F = Fields

  /** One style-sheet property (the variants in the order the source declares them). */
  datatype StyleAttr =
    | BackgroundColor(e: Expr)
    | BorderColor(e: Expr)
    | Color(e: Expr)
    | ZIndex(e: Expr)
    | Display(e: Expr)
    | Position(position: PositionType)
    | Overflow(axis: OverflowAxis)
    | OverflowX(axis: OverflowAxis)
    | OverflowY(axis: OverflowAxis)
    | Direction(direction: Ui.Direction)
    | Left(e: Expr)
    | Right(e: Expr)
    | Top(e: Expr)
    | Bottom(e: Expr)
    | Width(e: Expr)
    | Height(e: Expr)
    | MinWidth(e: Expr)
    | MinHeight(e: Expr)
    | MaxWidth(e: Expr)
    | MaxHeight(e: Expr)
    | AlignItems(alignItems: Ui.AlignItems)
    | JustifyItems(justifyItems: Ui.JustifyItems)
    | AlignSelf(alignSelf: Ui.AlignSelf)
    | JustifySelf(justifySelf: Ui.JustifySelf)
    | AlignContent(alignContent: Ui.AlignContent)
    | JustifyContent(justifyContent: Ui.JustifyContent)
    | Margin(e: Expr)
    | MarginLeft(e: Expr)
    | MarginRight(e: Expr)
    | MarginTop(e: Expr)
    | MarginBottom(e: Expr)
    | Padding(e: Expr)
    | PaddingLeft(e: Expr)
    | PaddingRight(e: Expr)
    | PaddingTop(e: Expr)
    | PaddingBottom(e: Expr)
    | Border(e: Expr)
    | BorderLeft(e: Expr)
    | BorderRight(e: Expr)
    | BorderTop(e: Expr)
    | BorderBottom(e: Expr)
    | FlexDirection(flexDirection: Ui.FlexDirection)
    | FlexWrap(flexWrap: Ui.FlexWrap)
    | FlexGrow(e: Expr)
    | FlexShrink(e: Expr)
    | FlexBasis(length: Val)
    | RowGap(length: Val)
    | ColumnGap(length: Val)
    | Gap(length: Val)
    | GridAutoFlow(gridAutoFlow: Ui.GridAutoFlow)
    | GridRow(placement: GridPlacement)
    | GridRowStart(line: I16)
    | GridRowSpan(span: U16)
    | GridRowEnd(line: I16)
    | GridColumn(placement: GridPlacement)
    | GridColumnStart(line: I16)
    | GridColumnSpan(span: U16)
    | GridColumnEnd(line: I16)
    | LineBreak(lineBreak: BreakLineOn)

  /**
   * Whether the attribute's value converts to the type of the field it writes. Only the
   * expression-backed variants can fail; the others hold their value already.
   */
  predicate Converts(attr: StyleAttr, ev: Evaluator) {
    match attr
    case BackgroundColor(e) => ev.color(e).Some?
    case BorderColor(e) => ev.color(e).Some?
    case Color(e) => ev.color(e).Some?
    case ZIndex(e) => ev.int32(e).Some?
    case Display(e) => ev.display(e).Some?
    case Left(e) => ev.length(e).Some?
    case Right(e) => ev.length(e).Some?
    case Top(e) => ev.length(e).Some?
    case Bottom(e) => ev.length(e).Some?
    case Width(e) => ev.length(e).Some?
    case Height(e) => ev.length(e).Some?
    case MinWidth(e) => ev.length(e).Some?
    case MinHeight(e) => ev.length(e).Some?
    case MaxWidth(e) => ev.length(e).Some?
    case MaxHeight(e) => ev.length(e).Some?
    case Margin(e) => ev.rect(e).Some?
    case MarginLeft(e) => ev.length(e).Some?
    case MarginRight(e) => ev.length(e).Some?
    case MarginTop(e) => ev.length(e).Some?
    case MarginBottom(e) => ev.length(e).Some?
    case Padding(e) => ev.rect(e).Some?
    case PaddingLeft(e) => ev.length(e).Some?
    case PaddingRight(e) => ev.length(e).Some?
    case PaddingTop(e) => ev.length(e).Some?
    case PaddingBottom(e) => ev.length(e).Some?
    case Border(e) => ev.rect(e).Some?
    case BorderLeft(e) => ev.length(e).Some?
    case BorderRight(e) => ev.length(e).Some?
    case BorderTop(e) => ev.length(e).Some?
    case BorderBottom(e) => ev.length(e).Some?
    case FlexGrow(e) => ev.scalar(e).Some?
    case FlexShrink(e) => ev.scalar(e).Some?
    case _ => true
  }

  /**
   * Writes one attribute into a computed style. A composite (`Overflow`, `Gap`, a whole rect or
   * grid placement) writes all its parts; a side or grid-line setter writes one part. The grid
   * line setters store their value (see `ApplyAsWritten` for what the source's code does).
   */
  function Apply(attr: StyleAttr, cs: ComputedStyle, ev: Evaluator): ComputedStyle {
    match attr
    case BackgroundColor(e) => if ev.color(e).Some? then F.WithBackgroundColor(cs, ev.color(e).value) else cs
    case BorderColor(e) => if ev.color(e).Some? then F.WithBorderColor(cs, ev.color(e).value) else cs
    case Color(e) => if ev.color(e).Some? then F.WithTextColor(cs, ev.color(e).value) else cs
    case ZIndex(e) => if ev.int32(e).Some? then F.WithZIndex(cs, Some(ev.int32(e).value)) else cs
    case Display(e) => if ev.display(e).Some? then F.WithDisplay(cs, ev.display(e).value) else cs
    case Position(position) => F.WithPositionType(cs, position)
    case Overflow(axis) => F.WithOverflow(cs, Ui.Overflow(axis, axis))
    case OverflowX(axis) => F.WithOverflowX(cs, axis)
    case OverflowY(axis) => F.WithOverflowY(cs, axis)
    case Direction(direction) => F.WithDirection(cs, direction)
    case Left(e) => if ev.length(e).Some? then F.WithLeft(cs, ev.length(e).value) else cs
    case Right(e) => if ev.length(e).Some? then F.WithRight(cs, ev.length(e).value) else cs
    case Top(e) => if ev.length(e).Some? then F.WithTop(cs, ev.length(e).value) else cs
    case Bottom(e) => if ev.length(e).Some? then F.WithBottom(cs, ev.length(e).value) else cs
    case Width(e) => if ev.length(e).Some? then F.WithWidth(cs, ev.length(e).value) else cs
    case Height(e) => if ev.length(e).Some? then F.WithHeight(cs, ev.length(e).value) else cs
    case MinWidth(e) => if ev.length(e).Some? then F.WithMinWidth(cs, ev.length(e).value) else cs
    case MinHeight(e) => if ev.length(e).Some? then F.WithMinHeight(cs, ev.length(e).value) else cs
    case MaxWidth(e) => if ev.length(e).Some? then F.WithMaxWidth(cs, ev.length(e).value) else cs
    case MaxHeight(e) => if ev.length(e).Some? then F.WithMaxHeight(cs, ev.length(e).value) else cs
    case AlignItems(alignItems) => F.WithAlignItems(cs, alignItems)
    case JustifyItems(justifyItems) => F.WithJustifyItems(cs, justifyItems)
    case AlignSelf(alignSelf) => F.WithAlignSelf(cs, alignSelf)
    case JustifySelf(justifySelf) => F.WithJustifySelf(cs, justifySelf)
    case AlignContent(alignContent) => F.WithAlignContent(cs, alignContent)
    case JustifyContent(justifyContent) => F.WithJustifyContent(cs, justifyContent)
    case Margin(e) => if ev.rect(e).Some? then F.WithMargin(cs, ev.rect(e).value) else cs
    case MarginLeft(e) => if ev.length(e).Some? then F.WithMarginLeft(cs, ev.length(e).value) else cs
    case MarginRight(e) => if ev.length(e).Some? then F.WithMarginRight(cs, ev.length(e).value) else cs
    case MarginTop(e) => if ev.length(e).Some? then F.WithMarginTop(cs, ev.length(e).value) else cs
    case MarginBottom(e) => if ev.length(e).Some? then F.WithMarginBottom(cs, ev.length(e).value) else cs
    case Padding(e) => if ev.rect(e).Some? then F.WithPadding(cs, ev.rect(e).value) else cs
    case PaddingLeft(e) => if ev.length(e).Some? then F.WithPaddingLeft(cs, ev.length(e).value) else cs
    case PaddingRight(e) => if ev.length(e).Some? then F.WithPaddingRight(cs, ev.length(e).value) else cs
    case PaddingTop(e) => if ev.length(e).Some? then F.WithPaddingTop(cs, ev.length(e).value) else cs
    case PaddingBottom(e) => if ev.length(e).Some? then F.WithPaddingBottom(cs, ev.length(e).value) else cs
    case Border(e) => if ev.rect(e).Some? then F.WithBorder(cs, ev.rect(e).value) else cs
    case BorderLeft(e) => if ev.length(e).Some? then F.WithBorderLeft(cs, ev.length(e).value) else cs
    case BorderRight(e) => if ev.length(e).Some? then F.WithBorderRight(cs, ev.length(e).value) else cs
    case BorderTop(e) => if ev.length(e).Some? then F.WithBorderTop(cs, ev.length(e).value) else cs
    case BorderBottom(e) => if ev.length(e).Some? then F.WithBorderBottom(cs, ev.length(e).value) else cs
    case FlexDirection(flexDirection) => F.WithFlexDirection(cs, flexDirection)
    case FlexWrap(flexWrap) => F.WithFlexWrap(cs, flexWrap)
    case FlexGrow(e) => if ev.scalar(e).Some? then F.WithFlexGrow(cs, ev.scalar(e).value) else cs
    case FlexShrink(e) => if ev.scalar(e).Some? then F.WithFlexShrink(cs, ev.scalar(e).value) else cs
    case FlexBasis(length) => F.WithFlexBasis(cs, length)
    case RowGap(length) => F.WithRowGap(cs, length)
    case ColumnGap(length) => F.WithColumnGap(cs, length)
    case Gap(length) => F.WithGaps(cs, length)
    case GridAutoFlow(gridAutoFlow) => F.WithGridAutoFlow(cs, gridAutoFlow)
    case GridRow(placement) => F.WithGridRow(cs, placement)
    case GridRowStart(line) => F.WithGridRowStart(cs, line)
    case GridRowSpan(span) => F.WithGridRowSpan(cs, span)
    case GridRowEnd(line) => F.WithGridRowEnd(cs, line)
    case GridColumn(placement) => F.WithGridColumn(cs, placement)
    case GridColumnStart(line) => F.WithGridColumnStart(cs, line)
    case GridColumnSpan(span) => F.WithGridColumnSpan(cs, span)
    case GridColumnEnd(line) => F.WithGridColumnEnd(cs, line)
    case LineBreak(lineBreak) => F.WithLineBreak(cs, Some(lineBreak))
  }


  /** Field `f` is one of the fields of the computed style the attribute writes when it applies. */
  predicate Targets(attr: StyleAttr, f: F.Field) {
    match attr
    case BackgroundColor(_) => f == F.Field.BackgroundColor
    case BorderColor(_) => f == F.Field.BorderColor
    case Color(_) => f == F.Field.TextColor
    case ZIndex(_) => f == F.Field.ZIndex
    case Display(_) => f == F.Field.Display
    case Position(_) => f == F.Field.PositionType
    case Overflow(_) => f == F.Field.OverflowX || f == F.Field.OverflowY
    case OverflowX(_) => f == F.Field.OverflowX
    case OverflowY(_) => f == F.Field.OverflowY
    case Direction(_) => f == F.Field.Direction
    case Left(_) => f == F.Field.Left
    case Right(_) => f == F.Field.Right
    case Top(_) => f == F.Field.Top
    case Bottom(_) => f == F.Field.Bottom
    case Width(_) => f == F.Field.Width
    case Height(_) => f == F.Field.Height
    case MinWidth(_) => f == F.Field.MinWidth
    case MinHeight(_) => f == F.Field.MinHeight
    case MaxWidth(_) => f == F.Field.MaxWidth
    case MaxHeight(_) => f == F.Field.MaxHeight
    case AlignItems(_) => f == F.Field.AlignItems
    case JustifyItems(_) => f == F.Field.JustifyItems
    case AlignSelf(_) => f == F.Field.AlignSelf
    case JustifySelf(_) => f == F.Field.JustifySelf
    case AlignContent(_) => f == F.Field.AlignContent
    case JustifyContent(_) => f == F.Field.JustifyContent
    case Margin(_) => f == F.Field.MarginLeft || f == F.Field.MarginRight || f == F.Field.MarginTop || f == F.Field.MarginBottom
    case MarginLeft(_) => f == F.Field.MarginLeft
    case MarginRight(_) => f == F.Field.MarginRight
    case MarginTop(_) => f == F.Field.MarginTop
    case MarginBottom(_) => f == F.Field.MarginBottom
    case Padding(_) => f == F.Field.PaddingLeft || f == F.Field.PaddingRight || f == F.Field.PaddingTop || f == F.Field.PaddingBottom
    case PaddingLeft(_) => f == F.Field.PaddingLeft
    case PaddingRight(_) => f == F.Field.PaddingRight
    case PaddingTop(_) => f == F.Field.PaddingTop
    case PaddingBottom(_) => f == F.Field.PaddingBottom
    case Border(_) => f == F.Field.BorderLeft || f == F.Field.BorderRight || f == F.Field.BorderTop || f == F.Field.BorderBottom
    case BorderLeft(_) => f == F.Field.BorderLeft
    case BorderRight(_) => f == F.Field.BorderRight
    case BorderTop(_) => f == F.Field.BorderTop
    case BorderBottom(_) => f == F.Field.BorderBottom
    case FlexDirection(_) => f == F.Field.FlexDirection
    case FlexWrap(_) => f == F.Field.FlexWrap
    case FlexGrow(_) => f == F.Field.FlexGrow
    case FlexShrink(_) => f == F.Field.FlexShrink
    case FlexBasis(_) => f == F.Field.FlexBasis
    case RowGap(_) => f == F.Field.RowGap
    case ColumnGap(_) => f == F.Field.ColumnGap
    case Gap(_) => f == F.Field.RowGap || f == F.Field.ColumnGap
    case GridAutoFlow(_) => f == F.Field.GridAutoFlow
    case GridRow(_) => f == F.Field.GridRowStart || f == F.Field.GridRowSpan || f == F.Field.GridRowEnd
    case GridRowStart(_) => f == F.Field.GridRowStart
    case GridRowSpan(_) => f == F.Field.GridRowSpan
    case GridRowEnd(_) => f == F.Field.GridRowEnd
    case GridColumn(_) => f == F.Field.GridColumnStart || f == F.Field.GridColumnSpan || f == F.Field.GridColumnEnd
    case GridColumnStart(_) => f == F.Field.GridColumnStart
    case GridColumnSpan(_) => f == F.Field.GridColumnSpan
    case GridColumnEnd(_) => f == F.Field.GridColumnEnd
    case LineBreak(_) => f == F.Field.LineBreak
  }

  /** Whether applying `attr` writes field `f`: its value converts and `f` is one of its fields. */
  predicate Writes(attr: StyleAttr, ev: Evaluator, f: F.Field) {
    Converts(attr, ev) && Targets(attr, f)
  }

  /** An attribute whose value does not convert leaves the computed style as it is. */
  lemma FailedConversionIsNoOp(attr: StyleAttr, cs: ComputedStyle, ev: Evaluator)
    requires !Converts(attr, ev)
    ensures Apply(attr, cs, ev) == cs
  {
  }

  /** Nothing else changes: every field the attribute does not write keeps its value. */
  lemma ApplyFrame(attr: StyleAttr, cs: ComputedStyle, ev: Evaluator, f: F.Field)
    requires !Writes(attr, ev, f)
    ensures F.Get(Apply(attr, cs, ev), f) == F.Get(cs, f)
  {
    if attr.BackgroundColor? || attr.BorderColor? {
      FramesOfBackgroundColorToBorderColor(attr, cs, ev, f);
    } else if attr.Color? || attr.ZIndex? {
      FramesOfColorToZIndex(attr, cs, ev, f);
    } else if attr.Display? || attr.Position? {
      FramesOfDisplayToPosition(attr, cs, ev, f);
    } else if attr.Overflow? || attr.OverflowX? {
      FramesOfOverflowToOverflowX(attr, cs, ev, f);
    } else if attr.OverflowY? || attr.Direction? {
      FramesOfOverflowYToDirection(attr, cs, ev, f);
    } else if attr.Left? || attr.Right? {
      FramesOfLeftToRight(attr, cs, ev, f);
    } else if attr.Top? || attr.Bottom? {
      FramesOfTopToBottom(attr, cs, ev, f);
    } else if attr.Width? || attr.Height? {
      FramesOfWidthToHeight(attr, cs, ev, f);
    } else if attr.MinWidth? || attr.MinHeight? {
      FramesOfMinWidthToMinHeight(attr, cs, ev, f);
    } else if attr.MaxWidth? || attr.MaxHeight? {
      FramesOfMaxWidthToMaxHeight(attr, cs, ev, f);
    } else if attr.AlignItems? || attr.JustifyItems? {
      FramesOfAlignItemsToJustifyItems(attr, cs, ev, f);
    } else if attr.AlignSelf? || attr.JustifySelf? {
      FramesOfAlignSelfToJustifySelf(attr, cs, ev, f);
    } else if attr.AlignContent? || attr.JustifyContent? {
      FramesOfAlignContentToJustifyContent(attr, cs, ev, f);
    } else if attr.Margin? || attr.MarginLeft? {
      FramesOfMarginToMarginLeft(attr, cs, ev, f);
    } else if attr.MarginRight? || attr.MarginTop? {
      FramesOfMarginRightToMarginTop(attr, cs, ev, f);
    } else if attr.MarginBottom? || attr.Padding? {
      FramesOfMarginBottomToPadding(attr, cs, ev, f);
    } else if attr.PaddingLeft? || attr.PaddingRight? {
      FramesOfPaddingLeftToPaddingRight(attr, cs, ev, f);
    } else if attr.PaddingTop? || attr.PaddingBottom? {
      FramesOfPaddingTopToPaddingBottom(attr, cs, ev, f);
    } else if attr.Border? || attr.BorderLeft? {
      FramesOfBorderToBorderLeft(attr, cs, ev, f);
    } else if attr.BorderRight? || attr.BorderTop? {
      FramesOfBorderRightToBorderTop(attr, cs, ev, f);
    } else if attr.BorderBottom? || attr.FlexDirection? {
      FramesOfBorderBottomToFlexDirection(attr, cs, ev, f);
    } else if attr.FlexWrap? || attr.FlexGrow? {
      FramesOfFlexWrapToFlexGrow(attr, cs, ev, f);
    } else if attr.FlexShrink? || attr.FlexBasis? {
      FramesOfFlexShrinkToFlexBasis(attr, cs, ev, f);
    } else if attr.RowGap? || attr.ColumnGap? {
      FramesOfRowGapToColumnGap(attr, cs, ev, f);
    } else if attr.Gap? || attr.GridAutoFlow? {
      FramesOfGapToGridAutoFlow(attr, cs, ev, f);
    } else if attr.GridRow? || attr.GridRowStart? {
      FramesOfGridRowToGridRowStart(attr, cs, ev, f);
    } else if attr.GridRowSpan? || attr.GridRowEnd? {
      FramesOfGridRowSpanToGridRowEnd(attr, cs, ev, f);
    } else if attr.GridColumn? || attr.GridColumnStart? {
      FramesOfGridColumnToGridColumnStart(attr, cs, ev, f);
    } else if attr.GridColumnSpan? || attr.GridColumnEnd? {
      FramesOfGridColumnSpanToGridColumnEnd(attr, cs, ev, f);
    } else {
      FramesOfLineBreak(attr, cs, ev, f);
    }
  }

  // The frame proof above is split so that each proof obligation stays small. One unfolding of
  // `Apply` on an arbitrary attribute, together with a field read, is too large for a single
  // obligation. The helpers below come in four kinds:
  //  - `UnwrittenBy<C1>To<C2>`: for two neighbouring constructors, turns `!Writes` into
  //    explicit field inequalities;
  //  - `<C1>To<C2>KeepsOthers`: the frame from those inequalities;
  //  - `FramesOf<C1>To<C2>`: chains the two;
  //  - per constructor, `ApplyOf<C>` gives the updated style in record form and `FrameOf<C>`
  //    combines it with the matching `Fields.Set<X>KeepsOthers`.

  lemma UnwrittenByBackgroundColorToBorderColor(attr: StyleAttr, ev: Evaluator, f: F.Field)
    requires attr.BackgroundColor? || attr.BorderColor?
    requires !Writes(attr, ev, f)
    ensures (attr.BackgroundColor? && ev.color(attr.e).Some? ==> f != F.Field.BackgroundColor) && (attr.BorderColor? && ev.color(attr.e).Some? ==> f != F.Field.BorderColor)
  {
  }

  lemma FramesOfBackgroundColorToBorderColor(attr: StyleAttr, cs: ComputedStyle, ev: Evaluator, f: F.Field)
    requires attr.BackgroundColor? || attr.BorderColor?
    requires !Writes(attr, ev, f)
    ensures F.Get(Apply(attr, cs, ev), f) == F.Get(cs, f)
  {
    UnwrittenByBackgroundColorToBorderColor(attr, ev, f);
    BackgroundColorToBorderColorKeepsOthers(attr, cs, ev, f);
  }

  lemma BackgroundColorToBorderColorKeepsOthers(attr: StyleAttr, cs: ComputedStyle, ev: Evaluator, f: F.Field)
    requires attr.BackgroundColor? || attr.BorderColor?
    requires (attr.BackgroundColor? && ev.color(attr.e).Some? ==> f != F.Field.BackgroundColor) && (attr.BorderColor? && ev.color(attr.e).Some? ==> f != F.Field.BorderColor)
    ensures F.Get(Apply(attr, cs, ev), f) == F.Get(cs, f)
  {
    if attr.BackgroundColor? {
      FrameOfBackgroundColor(attr.e, cs, ev, f);
    } else {
      FrameOfBorderColor(attr.e, cs, ev, f);
    }
  }

  lemma UnwrittenByColorToZIndex(attr: StyleAttr, ev: Evaluator, f: F.Field)
    requires attr.Color? || attr.ZIndex?
    requires !Writes(attr, ev, f)
    ensures (attr.Color? && ev.color(attr.e).Some? ==> f != F.Field.TextColor) && (attr.ZIndex? && ev.int32(attr.e).Some? ==> f != F.Field.ZIndex)
  {
  }

  lemma FramesOfColorToZIndex(attr: StyleAttr, cs: ComputedStyle, ev: Evaluator, f: F.Field)
    requires attr.Color? || attr.ZIndex?
    requires !Writes(attr, ev, f)
    ensures F.Get(Apply(attr, cs, ev), f) == F.Get(cs, f)
  {
    UnwrittenByColorToZIndex(attr, ev, f);
    ColorToZIndexKeepsOthers(attr, cs, ev, f);
  }

  lemma ColorToZIndexKeepsOthers(attr: StyleAttr, cs: ComputedStyle, ev: Evaluator, f: F.Field)
    requires attr.Color? || attr.ZIndex?
    requires (attr.Color? && ev.color(attr.e).Some? ==> f != F.Field.TextColor) && (attr.ZIndex? && ev.int32(attr.e).Some? ==> f != F.Field.ZIndex)
    ensures F.Get(Apply(attr, cs, ev), f) == F.Get(cs, f)
  {
    if attr.Color? {
      FrameOfColor(attr.e, cs, ev, f);
    } else {
      FrameOfZIndex(attr.e, cs, ev, f);
    }
  }

  lemma UnwrittenByDisplayToPosition(attr: StyleAttr, ev: Evaluator, f: F.Field)
    requires attr.Display? || attr.Position?
    requires !Writes(attr, ev, f)
    ensures (attr.Display? && ev.display(attr.e).Some? ==> f != F.Field.Display) && (attr.Position? ==> f != F.Field.PositionType)
  {
  }

  lemma FramesOfDisplayToPosition(attr: StyleAttr, cs: ComputedStyle, ev: Evaluator, f: F.Field)
    requires attr.Display? || attr.Position?
    requires !Writes(attr, ev, f)
    ensures F.Get(Apply(attr, cs, ev), f) == F.Get(cs, f)
  {
    UnwrittenByDisplayToPosition(attr, ev, f);
    DisplayToPositionKeepsOthers(attr, cs, ev, f);
  }

  lemma DisplayToPositionKeepsOthers(attr: StyleAttr, cs: ComputedStyle, ev: Evaluator, f: F.Field)
    requires attr.Display? || attr.Position?
    requires (attr.Display? && ev.display(attr.e).Some? ==> f != F.Field.Display) && (attr.Position? ==> f != F.Field.PositionType)
    ensures F.Get(Apply(attr, cs, ev), f) == F.Get(cs, f)
  {
    if attr.Display? {
      FrameOfDisplay(attr.e, cs, ev, f);
    } else {
      FrameOfPosition(attr.position, cs, ev, f);
    }
  }

  lemma UnwrittenByOverflowToOverflowX(attr: StyleAttr, ev: Evaluator, f: F.Field)
    requires attr.Overflow? || attr.OverflowX?
    requires !Writes(attr, ev, f)
    ensures (attr.Overflow? ==> f != F.Field.OverflowX && f != F.Field.OverflowY) && (attr.OverflowX? ==> f != F.Field.OverflowX)
  {
  }

  lemma FramesOfOverflowToOverflowX(attr: StyleAttr, cs: ComputedStyle, ev: Evaluator, f: F.Field)
    requires attr.Overflow? || attr.OverflowX?
    requires !Writes(attr, ev, f)
    ensures F.Get(Apply(attr, cs, ev), f) == F.Get(cs, f)
  {
    UnwrittenByOverflowToOverflowX(attr, ev, f);
    OverflowToOverflowXKeepsOthers(attr, cs, ev, f);
  }

  lemma OverflowToOverflowXKeepsOthers(attr: StyleAttr, cs: ComputedStyle, ev: Evaluator, f: F.Field)
    requires attr.Overflow? || attr.OverflowX?
    requires (attr.Overflow? ==> f != F.Field.OverflowX && f != F.Field.OverflowY) && (attr.OverflowX? ==> f != F.Field.OverflowX)
    ensures F.Get(Apply(attr, cs, ev), f) == F.Get(cs, f)
  {
    if attr.Overflow? {
      FrameOfOverflow(attr.axis, cs, ev, f);
    } else {
      FrameOfOverflowX(attr.axis, cs, ev, f);
    }
  }

  lemma UnwrittenByOverflowYToDirection(attr: StyleAttr, ev: Evaluator, f: F.Field)
    requires attr.OverflowY? || attr.Direction?
    requires !Writes(attr, ev, f)
    ensures (attr.OverflowY? ==> f != F.Field.OverflowY) && (attr.Direction? ==> f != F.Field.Direction)
  {
  }

  lemma FramesOfOverflowYToDirection(attr: StyleAttr, cs: ComputedStyle, ev: Evaluator, f: F.Field)
    requires attr.OverflowY? || attr.Direction?
    requires !Writes(attr, ev, f)
    ensures F.Get(Apply(attr, cs, ev), f) == F.Get(cs, f)
  {
    UnwrittenByOverflowYToDirection(attr, ev, f);
    OverflowYToDirectionKeepsOthers(attr, cs, ev, f);
  }

  lemma OverflowYToDirectionKeepsOthers(attr: StyleAttr, cs: ComputedStyle, ev: Evaluator, f: F.Field)
    requires attr.OverflowY? || attr.Direction?
    requires (attr.OverflowY? ==> f != F.Field.OverflowY) && (attr.Direction? ==> f != F.Field.Direction)
    ensures F.Get(Apply(attr, cs, ev), f) == F.Get(cs, f)
  {
    if attr.OverflowY? {
      FrameOfOverflowY(attr.axis, cs, ev, f);
    } else {
      FrameOfDirection(attr.direction, cs, ev, f);
    }
  }

  lemma UnwrittenByLeftToRight(attr: StyleAttr, ev: Evaluator, f: F.Field)
    requires attr.Left? || attr.Right?
    requires !Writes(attr, ev, f)
    ensures (attr.Left? && ev.length(attr.e).Some? ==> f != F.Field.Left) && (attr.Right? && ev.length(attr.e).Some? ==> f != F.Field.Right)
  {
  }

  lemma FramesOfLeftToRight(attr: StyleAttr, cs: ComputedStyle, ev: Evaluator, f: F.Field)
    requires attr.Left? || attr.Right?
    requires !Writes(attr, ev, f)
    ensures F.Get(Apply(attr, cs, ev), f) == F.Get(cs, f)
  {
    UnwrittenByLeftToRight(attr, ev, f);
    LeftToRightKeepsOthers(attr, cs, ev, f);
  }

  lemma LeftToRightKeepsOthers(attr: StyleAttr, cs: ComputedStyle, ev: Evaluator, f: F.Field)
    requires attr.Left? || attr.Right?
    requires (attr.Left? && ev.length(attr.e).Some? ==> f != F.Field.Left) && (attr.Right? && ev.length(attr.e).Some? ==> f != F.Field.Right)
    ensures F.Get(Apply(attr, cs, ev), f) == F.Get(cs, f)
  {
    if attr.Left? {
      FrameOfLeft(attr.e, cs, ev, f);
    } else {
      FrameOfRight(attr.e, cs, ev, f);
    }
  }

  lemma UnwrittenByTopToBottom(attr: StyleAttr, ev: Evaluator, f: F.Field)
    requires attr.Top? || attr.Bottom?
    requires !Writes(attr, ev, f)
    ensures (attr.Top? && ev.length(attr.e).Some? ==> f != F.Field.Top) && (attr.Bottom? && ev.length(attr.e).Some? ==> f != F.Field.Bottom)
  {
  }

  lemma FramesOfTopToBottom(attr: StyleAttr, cs: ComputedStyle, ev: Evaluator, f: F.Field)
    requires attr.Top? || attr.Bottom?
    requires !Writes(attr, ev, f)
    ensures F.Get(Apply(attr, cs, ev), f) == F.Get(cs, f)
  {
    UnwrittenByTopToBottom(attr, ev, f);
    TopToBottomKeepsOthers(attr, cs, ev, f);
  }

  lemma TopToBottomKeepsOthers(attr: StyleAttr, cs: ComputedStyle, ev: Evaluator, f: F.Field)
    requires attr.Top? || attr.Bottom?
    requires (attr.Top? && ev.length(attr.e).Some? ==> f != F.Field.Top) && (attr.Bottom? && ev.length(attr.e).Some? ==> f != F.Field.Bottom)
    ensures F.Get(Apply(attr, cs, ev), f) == F.Get(cs, f)
  {
    if attr.Top? {
      FrameOfTop(attr.e, cs, ev, f);
    } else {
      FrameOfBottom(attr.e, cs, ev, f);
    }
  }

  lemma UnwrittenByWidthToHeight(attr: StyleAttr, ev: Evaluator, f: F.Field)
    requires attr.Width? || attr.Height?
    requires !Writes(attr, ev, f)
    ensures (attr.Width? && ev.length(attr.e).Some? ==> f != F.Field.Width) && (attr.Height? && ev.length(attr.e).Some? ==> f != F.Field.Height)
  {
  }

  lemma FramesOfWidthToHeight(attr: StyleAttr, cs: ComputedStyle, ev: Evaluator, f: F.Field)
    requires attr.Width? || attr.Height?
    requires !Writes(attr, ev, f)
    ensures F.Get(Apply(attr, cs, ev), f) == F.Get(cs, f)
  {
    UnwrittenByWidthToHeight(attr, ev, f);
    WidthToHeightKeepsOthers(attr, cs, ev, f);
  }

  lemma WidthToHeightKeepsOthers(attr: StyleAttr, cs: ComputedStyle, ev: Evaluator, f: F.Field)
    requires attr.Width? || attr.Height?
    requires (attr.Width? && ev.length(attr.e).Some? ==> f != F.Field.Width) && (attr.Height? && ev.length(attr.e).Some? ==> f != F.Field.Height)
    ensures F.Get(Apply(attr, cs, ev), f) == F.Get(cs, f)
  {
    if attr.Width? {
      FrameOfWidth(attr.e, cs, ev, f);
    } else {
      FrameOfHeight(attr.e, cs, ev, f);
    }
  }

  lemma UnwrittenByMinWidthToMinHeight(attr: StyleAttr, ev: Evaluator, f: F.Field)
    requires attr.MinWidth? || attr.MinHeight?
    requires !Writes(attr, ev, f)
    ensures (attr.MinWidth? && ev.length(attr.e).Some? ==> f != F.Field.MinWidth) && (attr.MinHeight? && ev.length(attr.e).Some? ==> f != F.Field.MinHeight)
  {
  }

  lemma FramesOfMinWidthToMinHeight(attr: StyleAttr, cs: ComputedStyle, ev: Evaluator, f: F.Field)
    requires attr.MinWidth? || attr.MinHeight?
    requires !Writes(attr, ev, f)
    ensures F.Get(Apply(attr, cs, ev), f) == F.Get(cs, f)
  {
    UnwrittenByMinWidthToMinHeight(attr, ev, f);
    MinWidthToMinHeightKeepsOthers(attr, cs, ev, f);
  }

  lemma MinWidthToMinHeightKeepsOthers(attr: StyleAttr, cs: ComputedStyle, ev: Evaluator, f: F.Field)
    requires attr.MinWidth? || attr.MinHeight?
    requires (attr.MinWidth? && ev.length(attr.e).Some? ==> f != F.Field.MinWidth) && (attr.MinHeight? && ev.length(attr.e).Some? ==> f != F.Field.MinHeight)
    ensures F.Get(Apply(attr, cs, ev), f) == F.Get(cs, f)
  {
    if attr.MinWidth? {
      FrameOfMinWidth(attr.e, cs, ev, f);
    } else {
      FrameOfMinHeight(attr.e, cs, ev, f);
    }
  }

  lemma UnwrittenByMaxWidthToMaxHeight(attr: StyleAttr, ev: Evaluator, f: F.Field)
    requires attr.MaxWidth? || attr.MaxHeight?
    requires !Writes(attr, ev, f)
    ensures (attr.MaxWidth? && ev.length(attr.e).Some? ==> f != F.Field.MaxWidth) && (attr.MaxHeight? && ev.length(attr.e).Some? ==> f != F.Field.MaxHeight)
  {
  }

  lemma FramesOfMaxWidthToMaxHeight(attr: StyleAttr, cs: ComputedStyle, ev: Evaluator, f: F.Field)
    requires attr.MaxWidth? || attr.MaxHeight?
    requires !Writes(attr, ev, f)
    ensures F.Get(Apply(attr, cs, ev), f) == F.Get(cs, f)
  {
    UnwrittenByMaxWidthToMaxHeight(attr, ev, f);
    MaxWidthToMaxHeightKeepsOthers(attr, cs, ev, f);
  }

  lemma MaxWidthToMaxHeightKeepsOthers(attr: StyleAttr, cs: ComputedStyle, ev: Evaluator, f: F.Field)
    requires attr.MaxWidth? || attr.MaxHeight?
    requires (attr.MaxWidth? && ev.length(attr.e).Some? ==> f != F.Field.MaxWidth) && (attr.MaxHeight? && ev.length(attr.e).Some? ==> f != F.Field.MaxHeight)
    ensures F.Get(Apply(attr, cs, ev), f) == F.Get(cs, f)
  {
    if attr.MaxWidth? {
      FrameOfMaxWidth(attr.e, cs, ev, f);
    } else {
      FrameOfMaxHeight(attr.e, cs, ev, f);
    }
  }

  lemma UnwrittenByAlignItemsToJustifyItems(attr: StyleAttr, ev: Evaluator, f: F.Field)
    requires attr.AlignItems? || attr.JustifyItems?
    requires !Writes(attr, ev, f)
    ensures (attr.AlignItems? ==> f != F.Field.AlignItems) && (attr.JustifyItems? ==> f != F.Field.JustifyItems)
  {
  }

  lemma FramesOfAlignItemsToJustifyItems(attr: StyleAttr, cs: ComputedStyle, ev: Evaluator, f: F.Field)
    requires attr.AlignItems? || attr.JustifyItems?
    requires !Writes(attr, ev, f)
    ensures F.Get(Apply(attr, cs, ev), f) == F.Get(cs, f)
  {
    UnwrittenByAlignItemsToJustifyItems(attr, ev, f);
    AlignItemsToJustifyItemsKeepsOthers(attr, cs, ev, f);
  }

  lemma AlignItemsToJustifyItemsKeepsOthers(attr: StyleAttr, cs: ComputedStyle, ev: Evaluator, f: F.Field)
    requires attr.AlignItems? || attr.JustifyItems?
    requires (attr.AlignItems? ==> f != F.Field.AlignItems) && (attr.JustifyItems? ==> f != F.Field.JustifyItems)
    ensures F.Get(Apply(attr, cs, ev), f) == F.Get(cs, f)
  {
    if attr.AlignItems? {
      FrameOfAlignItems(attr.alignItems, cs, ev, f);
    } else {
      FrameOfJustifyItems(attr.justifyItems, cs, ev, f);
    }
  }

  lemma UnwrittenByAlignSelfToJustifySelf(attr: StyleAttr, ev: Evaluator, f: F.Field)
    requires attr.AlignSelf? || attr.JustifySelf?
    requires !Writes(attr, ev, f)
    ensures (attr.AlignSelf? ==> f != F.Field.AlignSelf) && (attr.JustifySelf? ==> f != F.Field.JustifySelf)
  {
  }

  lemma FramesOfAlignSelfToJustifySelf(attr: StyleAttr, cs: ComputedStyle, ev: Evaluator, f: F.Field)
    requires attr.AlignSelf? || attr.JustifySelf?
    requires !Writes(attr, ev, f)
    ensures F.Get(Apply(attr, cs, ev), f) == F.Get(cs, f)
  {
    UnwrittenByAlignSelfToJustifySelf(attr, ev, f);
    AlignSelfToJustifySelfKeepsOthers(attr, cs, ev, f);
  }

  lemma AlignSelfToJustifySelfKeepsOthers(attr: StyleAttr, cs: ComputedStyle, ev: Evaluator, f: F.Field)
    requires attr.AlignSelf? || attr.JustifySelf?
    requires (attr.AlignSelf? ==> f != F.Field.AlignSelf) && (attr.JustifySelf? ==> f != F.Field.JustifySelf)
    ensures F.Get(Apply(attr, cs, ev), f) == F.Get(cs, f)
  {
    if attr.AlignSelf? {
      FrameOfAlignSelf(attr.alignSelf, cs, ev, f);
    } else {
      FrameOfJustifySelf(attr.justifySelf, cs, ev, f);
    }
  }

  lemma UnwrittenByAlignContentToJustifyContent(attr: StyleAttr, ev: Evaluator, f: F.Field)
    requires attr.AlignContent? || attr.JustifyContent?
    requires !Writes(attr, ev, f)
    ensures (attr.AlignContent? ==> f != F.Field.AlignContent) && (attr.JustifyContent? ==> f != F.Field.JustifyContent)
  {
  }

  lemma FramesOfAlignContentToJustifyContent(attr: StyleAttr, cs: ComputedStyle, ev: Evaluator, f: F.Field)
    requires attr.AlignContent? || attr.JustifyContent?
    requires !Writes(attr, ev, f)
    ensures F.Get(Apply(attr, cs, ev), f) == F.Get(cs, f)
  {
    UnwrittenByAlignContentToJustifyContent(attr, ev, f);
    AlignContentToJustifyContentKeepsOthers(attr, cs, ev, f);
  }

  lemma AlignContentToJustifyContentKeepsOthers(attr: StyleAttr, cs: ComputedStyle, ev: Evaluator, f: F.Field)
    requires attr.AlignContent? || attr.JustifyContent?
    requires (attr.AlignContent? ==> f != F.Field.AlignContent) && (attr.JustifyContent? ==> f != F.Field.JustifyContent)
    ensures F.Get(Apply(attr, cs, ev), f) == F.Get(cs, f)
  {
    if attr.AlignContent? {
      FrameOfAlignContent(attr.alignContent, cs, ev, f);
    } else {
      FrameOfJustifyContent(attr.justifyContent, cs, ev, f);
    }
  }

  lemma UnwrittenByMarginToMarginLeft(attr: StyleAttr, ev: Evaluator, f: F.Field)
    requires attr.Margin? || attr.MarginLeft?
    requires !Writes(attr, ev, f)
    ensures (attr.Margin? && ev.rect(attr.e).Some? ==> f != F.Field.MarginLeft && f != F.Field.MarginRight && f != F.Field.MarginTop && f != F.Field.MarginBottom) && (attr.MarginLeft? && ev.length(attr.e).Some? ==> f != F.Field.MarginLeft)
  {
  }

  lemma FramesOfMarginToMarginLeft(attr: StyleAttr, cs: ComputedStyle, ev: Evaluator, f: F.Field)
    requires attr.Margin? || attr.MarginLeft?
    requires !Writes(attr, ev, f)
    ensures F.Get(Apply(attr, cs, ev), f) == F.Get(cs, f)
  {
    UnwrittenByMarginToMarginLeft(attr, ev, f);
    MarginToMarginLeftKeepsOthers(attr, cs, ev, f);
  }

  lemma MarginToMarginLeftKeepsOthers(attr: StyleAttr, cs: ComputedStyle, ev: Evaluator, f: F.Field)
    requires attr.Margin? || attr.MarginLeft?
    requires (attr.Margin? && ev.rect(attr.e).Some? ==> f != F.Field.MarginLeft && f != F.Field.MarginRight && f != F.Field.MarginTop && f != F.Field.MarginBottom) && (attr.MarginLeft? && ev.length(attr.e).Some? ==> f != F.Field.MarginLeft)
    ensures F.Get(Apply(attr, cs, ev), f) == F.Get(cs, f)
  {
    if attr.Margin? {
      FrameOfMargin(attr.e, cs, ev, f);
    } else {
      FrameOfMarginLeft(attr.e, cs, ev, f);
    }
  }

  lemma UnwrittenByMarginRightToMarginTop(attr: StyleAttr, ev: Evaluator, f: F.Field)
    requires attr.MarginRight? || attr.MarginTop?
    requires !Writes(attr, ev, f)
    ensures (attr.MarginRight? && ev.length(attr.e).Some? ==> f != F.Field.MarginRight) && (attr.MarginTop? && ev.length(attr.e).Some? ==> f != F.Field.MarginTop)
  {
  }

  lemma FramesOfMarginRightToMarginTop(attr: StyleAttr, cs: ComputedStyle, ev: Evaluator, f: F.Field)
    requires attr.MarginRight? || attr.MarginTop?
    requires !Writes(attr, ev, f)
    ensures F.Get(Apply(attr, cs, ev), f) == F.Get(cs, f)
  {
    UnwrittenByMarginRightToMarginTop(attr, ev, f);
    MarginRightToMarginTopKeepsOthers(attr, cs, ev, f);
  }

  lemma MarginRightToMarginTopKeepsOthers(attr: StyleAttr, cs: ComputedStyle, ev: Evaluator, f: F.Field)
    requires attr.MarginRight? || attr.MarginTop?
    requires (attr.MarginRight? && ev.length(attr.e).Some? ==> f != F.Field.MarginRight) && (attr.MarginTop? && ev.length(attr.e).Some? ==> f != F.Field.MarginTop)
    ensures F.Get(Apply(attr, cs, ev), f) == F.Get(cs, f)
  {
    if attr.MarginRight? {
      FrameOfMarginRight(attr.e, cs, ev, f);
    } else {
      FrameOfMarginTop(attr.e, cs, ev, f);
    }
  }

  lemma UnwrittenByMarginBottomToPadding(attr: StyleAttr, ev: Evaluator, f: F.Field)
    requires attr.MarginBottom? || attr.Padding?
    requires !Writes(attr, ev, f)
    ensures (attr.MarginBottom? && ev.length(attr.e).Some? ==> f != F.Field.MarginBottom) && (attr.Padding? && ev.rect(attr.e).Some? ==> f != F.Field.PaddingLeft && f != F.Field.PaddingRight && f != F.Field.PaddingTop && f != F.Field.PaddingBottom)
  {
  }

  lemma FramesOfMarginBottomToPadding(attr: StyleAttr, cs: ComputedStyle, ev: Evaluator, f: F.Field)
    requires attr.MarginBottom? || attr.Padding?
    requires !Writes(attr, ev, f)
    ensures F.Get(Apply(attr, cs, ev), f) == F.Get(cs, f)
  {
    UnwrittenByMarginBottomToPadding(attr, ev, f);
    MarginBottomToPaddingKeepsOthers(attr, cs, ev, f);
  }

  lemma MarginBottomToPaddingKeepsOthers(attr: StyleAttr, cs: ComputedStyle, ev: Evaluator, f: F.Field)
    requires attr.MarginBottom? || attr.Padding?
    requires (attr.MarginBottom? && ev.length(attr.e).Some? ==> f != F.Field.MarginBottom) && (attr.Padding? && ev.rect(attr.e).Some? ==> f != F.Field.PaddingLeft && f != F.Field.PaddingRight && f != F.Field.PaddingTop && f != F.Field.PaddingBottom)
    ensures F.Get(Apply(attr, cs, ev), f) == F.Get(cs, f)
  {
    if attr.MarginBottom? {
      FrameOfMarginBottom(attr.e, cs, ev, f);
    } else {
      FrameOfPadding(attr.e, cs, ev, f);
    }
  }

  lemma UnwrittenByPaddingLeftToPaddingRight(attr: StyleAttr, ev: Evaluator, f: F.Field)
    requires attr.PaddingLeft? || attr.PaddingRight?
    requires !Writes(attr, ev, f)
    ensures (attr.PaddingLeft? && ev.length(attr.e).Some? ==> f != F.Field.PaddingLeft) && (attr.PaddingRight? && ev.length(attr.e).Some? ==> f != F.Field.PaddingRight)
  {
  }

  lemma FramesOfPaddingLeftToPaddingRight(attr: StyleAttr, cs: ComputedStyle, ev: Evaluator, f: F.Field)
    requires attr.PaddingLeft? || attr.PaddingRight?
    requires !Writes(attr, ev, f)
    ensures F.Get(Apply(attr, cs, ev), f) == F.Get(cs, f)
  {
    UnwrittenByPaddingLeftToPaddingRight(attr, ev, f);
    PaddingLeftToPaddingRightKeepsOthers(attr, cs, ev, f);
  }

  lemma PaddingLeftToPaddingRightKeepsOthers(attr: StyleAttr, cs: ComputedStyle, ev: Evaluator, f: F.Field)
    requires attr.PaddingLeft? || attr.PaddingRight?
    requires (attr.PaddingLeft? && ev.length(attr.e).Some? ==> f != F.Field.PaddingLeft) && (attr.PaddingRight? && ev.length(attr.e).Some? ==> f != F.Field.PaddingRight)
    ensures F.Get(Apply(attr, cs, ev), f) == F.Get(cs, f)
  {
    if attr.PaddingLeft? {
      FrameOfPaddingLeft(attr.e, cs, ev, f);
    } else {
      FrameOfPaddingRight(attr.e, cs, ev, f);
    }
  }

  lemma UnwrittenByPaddingTopToPaddingBottom(attr: StyleAttr, ev: Evaluator, f: F.Field)
    requires attr.PaddingTop? || attr.PaddingBottom?
    requires !Writes(attr, ev, f)
    ensures (attr.PaddingTop? && ev.length(attr.e).Some? ==> f != F.Field.PaddingTop) && (attr.PaddingBottom? && ev.length(attr.e).Some? ==> f != F.Field.PaddingBottom)
  {
  }

  lemma FramesOfPaddingTopToPaddingBottom(attr: StyleAttr, cs: ComputedStyle, ev: Evaluator, f: F.Field)
    requires attr.PaddingTop? || attr.PaddingBottom?
    requires !Writes(attr, ev, f)
    ensures F.Get(Apply(attr, cs, ev), f) == F.Get(cs, f)
  {
    UnwrittenByPaddingTopToPaddingBottom(attr, ev, f);
    PaddingTopToPaddingBottomKeepsOthers(attr, cs, ev, f);
  }

  lemma PaddingTopToPaddingBottomKeepsOthers(attr: StyleAttr, cs: ComputedStyle, ev: Evaluator, f: F.Field)
    requires attr.PaddingTop? || attr.PaddingBottom?
    requires (attr.PaddingTop? && ev.length(attr.e).Some? ==> f != F.Field.PaddingTop) && (attr.PaddingBottom? && ev.length(attr.e).Some? ==> f != F.Field.PaddingBottom)
    ensures F.Get(Apply(attr, cs, ev), f) == F.Get(cs, f)
  {
    if attr.PaddingTop? {
      FrameOfPaddingTop(attr.e, cs, ev, f);
    } else {
      FrameOfPaddingBottom(attr.e, cs, ev, f);
    }
  }

  lemma UnwrittenByBorderToBorderLeft(attr: StyleAttr, ev: Evaluator, f: F.Field)
    requires attr.Border? || attr.BorderLeft?
    requires !Writes(attr, ev, f)
    ensures (attr.Border? && ev.rect(attr.e).Some? ==> f != F.Field.BorderLeft && f != F.Field.BorderRight && f != F.Field.BorderTop && f != F.Field.BorderBottom) && (attr.BorderLeft? && ev.length(attr.e).Some? ==> f != F.Field.BorderLeft)
  {
  }

  lemma FramesOfBorderToBorderLeft(attr: StyleAttr, cs: ComputedStyle, ev: Evaluator, f: F.Field)
    requires attr.Border? || attr.BorderLeft?
    requires !Writes(attr, ev, f)
    ensures F.Get(Apply(attr, cs, ev), f) == F.Get(cs, f)
  {
    UnwrittenByBorderToBorderLeft(attr, ev, f);
    BorderToBorderLeftKeepsOthers(attr, cs, ev, f);
  }

  lemma BorderToBorderLeftKeepsOthers(attr: StyleAttr, cs: ComputedStyle, ev: Evaluator, f: F.Field)
    requires attr.Border? || attr.BorderLeft?
    requires (attr.Border? && ev.rect(attr.e).Some? ==> f != F.Field.BorderLeft && f != F.Field.BorderRight && f != F.Field.BorderTop && f != F.Field.BorderBottom) && (attr.BorderLeft? && ev.length(attr.e).Some? ==> f != F.Field.BorderLeft)
    ensures F.Get(Apply(attr, cs, ev), f) == F.Get(cs, f)
  {
    if attr.Border? {
      FrameOfBorder(attr.e, cs, ev, f);
    } else {
      FrameOfBorderLeft(attr.e, cs, ev, f);
    }
  }

  lemma UnwrittenByBorderRightToBorderTop(attr: StyleAttr, ev: Evaluator, f: F.Field)
    requires attr.BorderRight? || attr.BorderTop?
    requires !Writes(attr, ev, f)
    ensures (attr.BorderRight? && ev.length(attr.e).Some? ==> f != F.Field.BorderRight) && (attr.BorderTop? && ev.length(attr.e).Some? ==> f != F.Field.BorderTop)
  {
  }

  lemma FramesOfBorderRightToBorderTop(attr: StyleAttr, cs: ComputedStyle, ev: Evaluator, f: F.Field)
    requires attr.BorderRight? || attr.BorderTop?
    requires !Writes(attr, ev, f)
    ensures F.Get(Apply(attr, cs, ev), f) == F.Get(cs, f)
  {
    UnwrittenByBorderRightToBorderTop(attr, ev, f);
    BorderRightToBorderTopKeepsOthers(attr, cs, ev, f);
  }

  lemma BorderRightToBorderTopKeepsOthers(attr: StyleAttr, cs: ComputedStyle, ev: Evaluator, f: F.Field)
    requires attr.BorderRight? || attr.BorderTop?
    requires (attr.BorderRight? && ev.length(attr.e).Some? ==> f != F.Field.BorderRight) && (attr.BorderTop? && ev.length(attr.e).Some? ==> f != F.Field.BorderTop)
    ensures F.Get(Apply(attr, cs, ev), f) == F.Get(cs, f)
  {
    if attr.BorderRight? {
      FrameOfBorderRight(attr.e, cs, ev, f);
    } else {
      FrameOfBorderTop(attr.e, cs, ev, f);
    }
  }

  lemma UnwrittenByBorderBottomToFlexDirection(attr: StyleAttr, ev: Evaluator, f: F.Field)
    requires attr.BorderBottom? || attr.FlexDirection?
    requires !Writes(attr, ev, f)
    ensures (attr.BorderBottom? && ev.length(attr.e).Some? ==> f != F.Field.BorderBottom) && (attr.FlexDirection? ==> f != F.Field.FlexDirection)
  {
  }

  lemma FramesOfBorderBottomToFlexDirection(attr: StyleAttr, cs: ComputedStyle, ev: Evaluator, f: F.Field)
    requires attr.BorderBottom? || attr.FlexDirection?
    requires !Writes(attr, ev, f)
    ensures F.Get(Apply(attr, cs, ev), f) == F.Get(cs, f)
  {
    UnwrittenByBorderBottomToFlexDirection(attr, ev, f);
    BorderBottomToFlexDirectionKeepsOthers(attr, cs, ev, f);
  }

  lemma BorderBottomToFlexDirectionKeepsOthers(attr: StyleAttr, cs: ComputedStyle, ev: Evaluator, f: F.Field)
    requires attr.BorderBottom? || attr.FlexDirection?
    requires (attr.BorderBottom? && ev.length(attr.e).Some? ==> f != F.Field.BorderBottom) && (attr.FlexDirection? ==> f != F.Field.FlexDirection)
    ensures F.Get(Apply(attr, cs, ev), f) == F.Get(cs, f)
  {
    if attr.BorderBottom? {
      FrameOfBorderBottom(attr.e, cs, ev, f);
    } else {
      FrameOfFlexDirection(attr.flexDirection, cs, ev, f);
    }
  }

  lemma UnwrittenByFlexWrapToFlexGrow(attr: StyleAttr, ev: Evaluator, f: F.Field)
    requires attr.FlexWrap? || attr.FlexGrow?
    requires !Writes(attr, ev, f)
    ensures (attr.FlexWrap? ==> f != F.Field.FlexWrap) && (attr.FlexGrow? && ev.scalar(attr.e).Some? ==> f != F.Field.FlexGrow)
  {
  }

  lemma FramesOfFlexWrapToFlexGrow(attr: StyleAttr, cs: ComputedStyle, ev: Evaluator, f: F.Field)
    requires attr.FlexWrap? || attr.FlexGrow?
    requires !Writes(attr, ev, f)
    ensures F.Get(Apply(attr, cs, ev), f) == F.Get(cs, f)
  {
    UnwrittenByFlexWrapToFlexGrow(attr, ev, f);
    FlexWrapToFlexGrowKeepsOthers(attr, cs, ev, f);
  }

  lemma FlexWrapToFlexGrowKeepsOthers(attr: StyleAttr, cs: ComputedStyle, ev: Evaluator, f: F.Field)
    requires attr.FlexWrap? || attr.FlexGrow?
    requires (attr.FlexWrap? ==> f != F.Field.FlexWrap) && (attr.FlexGrow? && ev.scalar(attr.e).Some? ==> f != F.Field.FlexGrow)
    ensures F.Get(Apply(attr, cs, ev), f) == F.Get(cs, f)
  {
    if attr.FlexWrap? {
      FrameOfFlexWrap(attr.flexWrap, cs, ev, f);
    } else {
      FrameOfFlexGrow(attr.e, cs, ev, f);
    }
  }

  lemma UnwrittenByFlexShrinkToFlexBasis(attr: StyleAttr, ev: Evaluator, f: F.Field)
    requires attr.FlexShrink? || attr.FlexBasis?
    requires !Writes(attr, ev, f)
    ensures (attr.FlexShrink? && ev.scalar(attr.e).Some? ==> f != F.Field.FlexShrink) && (attr.FlexBasis? ==> f != F.Field.FlexBasis)
  {
  }

  lemma FramesOfFlexShrinkToFlexBasis(attr: StyleAttr, cs: ComputedStyle, ev: Evaluator, f: F.Field)
    requires attr.FlexShrink? || attr.FlexBasis?
    requires !Writes(attr, ev, f)
    ensures F.Get(Apply(attr, cs, ev), f) == F.Get(cs, f)
  {
    UnwrittenByFlexShrinkToFlexBasis(attr, ev, f);
    FlexShrinkToFlexBasisKeepsOthers(attr, cs, ev, f);
  }

  lemma FlexShrinkToFlexBasisKeepsOthers(attr: StyleAttr, cs: ComputedStyle, ev: Evaluator, f: F.Field)
    requires attr.FlexShrink? || attr.FlexBasis?
    requires (attr.FlexShrink? && ev.scalar(attr.e).Some? ==> f != F.Field.FlexShrink) && (attr.FlexBasis? ==> f != F.Field.FlexBasis)
    ensures F.Get(Apply(attr, cs, ev), f) == F.Get(cs, f)
  {
    if attr.FlexShrink? {
      FrameOfFlexShrink(attr.e, cs, ev, f);
    } else {
      FrameOfFlexBasis(attr.length, cs, ev, f);
    }
  }

  lemma UnwrittenByRowGapToColumnGap(attr: StyleAttr, ev: Evaluator, f: F.Field)
    requires attr.RowGap? || attr.ColumnGap?
    requires !Writes(attr, ev, f)
    ensures (attr.RowGap? ==> f != F.Field.RowGap) && (attr.ColumnGap? ==> f != F.Field.ColumnGap)
  {
  }

  lemma FramesOfRowGapToColumnGap(attr: StyleAttr, cs: ComputedStyle, ev: Evaluator, f: F.Field)
    requires attr.RowGap? || attr.ColumnGap?
    requires !Writes(attr, ev, f)
    ensures F.Get(Apply(attr, cs, ev), f) == F.Get(cs, f)
  {
    UnwrittenByRowGapToColumnGap(attr, ev, f);
    RowGapToColumnGapKeepsOthers(attr, cs, ev, f);
  }

  lemma RowGapToColumnGapKeepsOthers(attr: StyleAttr, cs: ComputedStyle, ev: Evaluator, f: F.Field)
    requires attr.RowGap? || attr.ColumnGap?
    requires (attr.RowGap? ==> f != F.Field.RowGap) && (attr.ColumnGap? ==> f != F.Field.ColumnGap)
    ensures F.Get(Apply(attr, cs, ev), f) == F.Get(cs, f)
  {
    if attr.RowGap? {
      FrameOfRowGap(attr.length, cs, ev, f);
    } else {
      FrameOfColumnGap(attr.length, cs, ev, f);
    }
  }

  lemma UnwrittenByGapToGridAutoFlow(attr: StyleAttr, ev: Evaluator, f: F.Field)
    requires attr.Gap? || attr.GridAutoFlow?
    requires !Writes(attr, ev, f)
    ensures (attr.Gap? ==> f != F.Field.RowGap && f != F.Field.ColumnGap) && (attr.GridAutoFlow? ==> f != F.Field.GridAutoFlow)
  {
  }

  lemma FramesOfGapToGridAutoFlow(attr: StyleAttr, cs: ComputedStyle, ev: Evaluator, f: F.Field)
    requires attr.Gap? || attr.GridAutoFlow?
    requires !Writes(attr, ev, f)
    ensures F.Get(Apply(attr, cs, ev), f) == F.Get(cs, f)
  {
    UnwrittenByGapToGridAutoFlow(attr, ev, f);
    GapToGridAutoFlowKeepsOthers(attr, cs, ev, f);
  }

  lemma GapToGridAutoFlowKeepsOthers(attr: StyleAttr, cs: ComputedStyle, ev: Evaluator, f: F.Field)
    requires attr.Gap? || attr.GridAutoFlow?
    requires (attr.Gap? ==> f != F.Field.RowGap && f != F.Field.ColumnGap) && (attr.GridAutoFlow? ==> f != F.Field.GridAutoFlow)
    ensures F.Get(Apply(attr, cs, ev), f) == F.Get(cs, f)
  {
    if attr.Gap? {
      FrameOfGap(attr.length, cs, ev, f);
    } else {
      FrameOfGridAutoFlow(attr.gridAutoFlow, cs, ev, f);
    }
  }

  lemma UnwrittenByGridRowToGridRowStart(attr: StyleAttr, ev: Evaluator, f: F.Field)
    requires attr.GridRow? || attr.GridRowStart?
    requires !Writes(attr, ev, f)
    ensures (attr.GridRow? ==> f != F.Field.GridRowStart && f != F.Field.GridRowSpan && f != F.Field.GridRowEnd) && (attr.GridRowStart? ==> f != F.Field.GridRowStart)
  {
  }

  lemma FramesOfGridRowToGridRowStart(attr: StyleAttr, cs: ComputedStyle, ev: Evaluator, f: F.Field)
    requires attr.GridRow? || attr.GridRowStart?
    requires !Writes(attr, ev, f)
    ensures F.Get(Apply(attr, cs, ev), f) == F.Get(cs, f)
  {
    UnwrittenByGridRowToGridRowStart(attr, ev, f);
    GridRowToGridRowStartKeepsOthers(attr, cs, ev, f);
  }

  lemma GridRowToGridRowStartKeepsOthers(attr: StyleAttr, cs: ComputedStyle, ev: Evaluator, f: F.Field)
    requires attr.GridRow? || attr.GridRowStart?
    requires (attr.GridRow? ==> f != F.Field.GridRowStart && f != F.Field.GridRowSpan && f != F.Field.GridRowEnd) && (attr.GridRowStart? ==> f != F.Field.GridRowStart)
    ensures F.Get(Apply(attr, cs, ev), f) == F.Get(cs, f)
  {
    if attr.GridRow? {
      FrameOfGridRow(attr.placement, cs, ev, f);
    } else {
      FrameOfGridRowStart(attr.line, cs, ev, f);
    }
  }

  lemma UnwrittenByGridRowSpanToGridRowEnd(attr: StyleAttr, ev: Evaluator, f: F.Field)
    requires attr.GridRowSpan? || attr.GridRowEnd?
    requires !Writes(attr, ev, f)
    ensures (attr.GridRowSpan? ==> f != F.Field.GridRowSpan) && (attr.GridRowEnd? ==> f != F.Field.GridRowEnd)
  {
  }

  lemma FramesOfGridRowSpanToGridRowEnd(attr: StyleAttr, cs: ComputedStyle, ev: Evaluator, f: F.Field)
    requires attr.GridRowSpan? || attr.GridRowEnd?
    requires !Writes(attr, ev, f)
    ensures F.Get(Apply(attr, cs, ev), f) == F.Get(cs, f)
  {
    UnwrittenByGridRowSpanToGridRowEnd(attr, ev, f);
    GridRowSpanToGridRowEndKeepsOthers(attr, cs, ev, f);
  }

  lemma GridRowSpanToGridRowEndKeepsOthers(attr: StyleAttr, cs: ComputedStyle, ev: Evaluator, f: F.Field)
    requires attr.GridRowSpan? || attr.GridRowEnd?
    requires (attr.GridRowSpan? ==> f != F.Field.GridRowSpan) && (attr.GridRowEnd? ==> f != F.Field.GridRowEnd)
    ensures F.Get(Apply(attr, cs, ev), f) == F.Get(cs, f)
  {
    if attr.GridRowSpan? {
      FrameOfGridRowSpan(attr.span, cs, ev, f);
    } else {
      FrameOfGridRowEnd(attr.line, cs, ev, f);
    }
  }

  lemma UnwrittenByGridColumnToGridColumnStart(attr: StyleAttr, ev: Evaluator, f: F.Field)
    requires attr.GridColumn? || attr.GridColumnStart?
    requires !Writes(attr, ev, f)
    ensures (attr.GridColumn? ==> f != F.Field.GridColumnStart && f != F.Field.GridColumnSpan && f != F.Field.GridColumnEnd) && (attr.GridColumnStart? ==> f != F.Field.GridColumnStart)
  {
  }

  lemma FramesOfGridColumnToGridColumnStart(attr: StyleAttr, cs: ComputedStyle, ev: Evaluator, f: F.Field)
    requires attr.GridColumn? || attr.GridColumnStart?
    requires !Writes(attr, ev, f)
    ensures F.Get(Apply(attr, cs, ev), f) == F.Get(cs, f)
  {
    UnwrittenByGridColumnToGridColumnStart(attr, ev, f);
    GridColumnToGridColumnStartKeepsOthers(attr, cs, ev, f);
  }

  lemma GridColumnToGridColumnStartKeepsOthers(attr: StyleAttr, cs: ComputedStyle, ev: Evaluator, f: F.Field)
    requires attr.GridColumn? || attr.GridColumnStart?
    requires (attr.GridColumn? ==> f != F.Field.GridColumnStart && f != F.Field.GridColumnSpan && f != F.Field.GridColumnEnd) && (attr.GridColumnStart? ==> f != F.Field.GridColumnStart)
    ensures F.Get(Apply(attr, cs, ev), f) == F.Get(cs, f)
  {
    if attr.GridColumn? {
      FrameOfGridColumn(attr.placement, cs, ev, f);
    } else {
      FrameOfGridColumnStart(attr.line, cs, ev, f);
    }
  }

  lemma UnwrittenByGridColumnSpanToGridColumnEnd(attr: StyleAttr, ev: Evaluator, f: F.Field)
    requires attr.GridColumnSpan? || attr.GridColumnEnd?
    requires !Writes(attr, ev, f)
    ensures (attr.GridColumnSpan? ==> f != F.Field.GridColumnSpan) && (attr.GridColumnEnd? ==> f != F.Field.GridColumnEnd)
  {
  }

  lemma FramesOfGridColumnSpanToGridColumnEnd(attr: StyleAttr, cs: ComputedStyle, ev: Evaluator, f: F.Field)
    requires attr.GridColumnSpan? || attr.GridColumnEnd?
    requires !Writes(attr, ev, f)
    ensures F.Get(Apply(attr, cs, ev), f) == F.Get(cs, f)
  {
    UnwrittenByGridColumnSpanToGridColumnEnd(attr, ev, f);
    GridColumnSpanToGridColumnEndKeepsOthers(attr, cs, ev, f);
  }

  lemma GridColumnSpanToGridColumnEndKeepsOthers(attr: StyleAttr, cs: ComputedStyle, ev: Evaluator, f: F.Field)
    requires attr.GridColumnSpan? || attr.GridColumnEnd?
    requires (attr.GridColumnSpan? ==> f != F.Field.GridColumnSpan) && (attr.GridColumnEnd? ==> f != F.Field.GridColumnEnd)
    ensures F.Get(Apply(attr, cs, ev), f) == F.Get(cs, f)
  {
    if attr.GridColumnSpan? {
      FrameOfGridColumnSpan(attr.span, cs, ev, f);
    } else {
      FrameOfGridColumnEnd(attr.line, cs, ev, f);
    }
  }

  lemma UnwrittenByLineBreak(attr: StyleAttr, ev: Evaluator, f: F.Field)
    requires attr.LineBreak?
    requires !Writes(attr, ev, f)
    ensures (attr.LineBreak? ==> f != F.Field.LineBreak)
  {
  }

  lemma FramesOfLineBreak(attr: StyleAttr, cs: ComputedStyle, ev: Evaluator, f: F.Field)
    requires attr.LineBreak?
    requires !Writes(attr, ev, f)
    ensures F.Get(Apply(attr, cs, ev), f) == F.Get(cs, f)
  {
    UnwrittenByLineBreak(attr, ev, f);
    LineBreakKeepsOthers(attr, cs, ev, f);
  }

  lemma LineBreakKeepsOthers(attr: StyleAttr, cs: ComputedStyle, ev: Evaluator, f: F.Field)
    requires attr.LineBreak?
    requires (attr.LineBreak? ==> f != F.Field.LineBreak)
    ensures F.Get(Apply(attr, cs, ev), f) == F.Get(cs, f)
  {
    FrameOfLineBreak(attr.lineBreak, cs, ev, f);
  }

  lemma ApplyOfBackgroundColor(e: Expr, cs: ComputedStyle, ev: Evaluator)
    requires ev.color(e).Some?
    ensures Apply(StyleAttr.BackgroundColor(e), cs, ev) == F.WithBackgroundColor(cs, ev.color(e).value)
  {
  }

  lemma FrameOfBackgroundColor(e: Expr, cs: ComputedStyle, ev: Evaluator, f: F.Field)
    requires ev.color(e).Some? ==> f != F.Field.BackgroundColor
    ensures F.Get(Apply(StyleAttr.BackgroundColor(e), cs, ev), f) == F.Get(cs, f)
  {
    if ev.color(e).Some? {
      ApplyOfBackgroundColor(e, cs, ev);
      F.SetBackgroundColorKeepsOthers(cs, ev.color(e).value, f);
    }
  }

  lemma ApplyOfBorderColor(e: Expr, cs: ComputedStyle, ev: Evaluator)
    requires ev.color(e).Some?
    ensures Apply(StyleAttr.BorderColor(e), cs, ev) == F.WithBorderColor(cs, ev.color(e).value)
  {
  }

  lemma FrameOfBorderColor(e: Expr, cs: ComputedStyle, ev: Evaluator, f: F.Field)
    requires ev.color(e).Some? ==> f != F.Field.BorderColor
    ensures F.Get(Apply(StyleAttr.BorderColor(e), cs, ev), f) == F.Get(cs, f)
  {
    if ev.color(e).Some? {
      ApplyOfBorderColor(e, cs, ev);
      F.SetBorderColorKeepsOthers(cs, ev.color(e).value, f);
    }
  }

  lemma ApplyOfColor(e: Expr, cs: ComputedStyle, ev: Evaluator)
    requires ev.color(e).Some?
    ensures Apply(StyleAttr.Color(e), cs, ev) == F.WithTextColor(cs, ev.color(e).value)
  {
  }

  lemma FrameOfColor(e: Expr, cs: ComputedStyle, ev: Evaluator, f: F.Field)
    requires ev.color(e).Some? ==> f != F.Field.TextColor
    ensures F.Get(Apply(StyleAttr.Color(e), cs, ev), f) == F.Get(cs, f)
  {
    if ev.color(e).Some? {
      ApplyOfColor(e, cs, ev);
      F.SetTextColorKeepsOthers(cs, ev.color(e).value, f);
    }
  }

  lemma ApplyOfZIndex(e: Expr, cs: ComputedStyle, ev: Evaluator)
    requires ev.int32(e).Some?
    ensures Apply(StyleAttr.ZIndex(e), cs, ev) == F.WithZIndex(cs, Some(ev.int32(e).value))
  {
  }

  lemma FrameOfZIndex(e: Expr, cs: ComputedStyle, ev: Evaluator, f: F.Field)
    requires ev.int32(e).Some? ==> f != F.Field.ZIndex
    ensures F.Get(Apply(StyleAttr.ZIndex(e), cs, ev), f) == F.Get(cs, f)
  {
    if ev.int32(e).Some? {
      ApplyOfZIndex(e, cs, ev);
      F.SetZIndexKeepsOthers(cs, Some(ev.int32(e).value), f);
    }
  }

  lemma ApplyOfDisplay(e: Expr, cs: ComputedStyle, ev: Evaluator)
    requires ev.display(e).Some?
    ensures Apply(StyleAttr.Display(e), cs, ev) == F.WithDisplay(cs, ev.display(e).value)
  {
  }

  lemma FrameOfDisplay(e: Expr, cs: ComputedStyle, ev: Evaluator, f: F.Field)
    requires ev.display(e).Some? ==> f != F.Field.Display
    ensures F.Get(Apply(StyleAttr.Display(e), cs, ev), f) == F.Get(cs, f)
  {
    if ev.display(e).Some? {
      ApplyOfDisplay(e, cs, ev);
      F.SetDisplayKeepsOthers(cs, ev.display(e).value, f);
    }
  }

  lemma ApplyOfPosition(position: PositionType, cs: ComputedStyle, ev: Evaluator)
    ensures Apply(StyleAttr.Position(position), cs, ev) == F.WithPositionType(cs, position)
  {
  }

  lemma FrameOfPosition(position: PositionType, cs: ComputedStyle, ev: Evaluator, f: F.Field)
    requires f != F.Field.PositionType
    ensures F.Get(Apply(StyleAttr.Position(position), cs, ev), f) == F.Get(cs, f)
  {
    ApplyOfPosition(position, cs, ev);
    F.SetPositionTypeKeepsOthers(cs, position, f);
  }

  lemma ApplyOfOverflow(axis: OverflowAxis, cs: ComputedStyle, ev: Evaluator)
    ensures Apply(StyleAttr.Overflow(axis), cs, ev) == F.WithOverflow(cs, Ui.Overflow(axis, axis))
  {
  }

  lemma FrameOfOverflow(axis: OverflowAxis, cs: ComputedStyle, ev: Evaluator, f: F.Field)
    requires f != F.Field.OverflowX && f != F.Field.OverflowY
    ensures F.Get(Apply(StyleAttr.Overflow(axis), cs, ev), f) == F.Get(cs, f)
  {
    ApplyOfOverflow(axis, cs, ev);
    F.SetOverflowKeepsOthers(cs, Ui.Overflow(axis, axis), f);
  }

  lemma ApplyOfOverflowX(axis: OverflowAxis, cs: ComputedStyle, ev: Evaluator)
    ensures Apply(StyleAttr.OverflowX(axis), cs, ev) == F.WithOverflowX(cs, axis)
  {
  }

  lemma FrameOfOverflowX(axis: OverflowAxis, cs: ComputedStyle, ev: Evaluator, f: F.Field)
    requires f != F.Field.OverflowX
    ensures F.Get(Apply(StyleAttr.OverflowX(axis), cs, ev), f) == F.Get(cs, f)
  {
    ApplyOfOverflowX(axis, cs, ev);
    F.SetOverflowXKeepsOthers(cs, axis, f);
  }

  lemma ApplyOfOverflowY(axis: OverflowAxis, cs: ComputedStyle, ev: Evaluator)
    ensures Apply(StyleAttr.OverflowY(axis), cs, ev) == F.WithOverflowY(cs, axis)
  {
  }

  lemma FrameOfOverflowY(axis: OverflowAxis, cs: ComputedStyle, ev: Evaluator, f: F.Field)
    requires f != F.Field.OverflowY
    ensures F.Get(Apply(StyleAttr.OverflowY(axis), cs, ev), f) == F.Get(cs, f)
  {
    ApplyOfOverflowY(axis, cs, ev);
    F.SetOverflowYKeepsOthers(cs, axis, f);
  }

  lemma ApplyOfDirection(direction: Ui.Direction, cs: ComputedStyle, ev: Evaluator)
    ensures Apply(StyleAttr.Direction(direction), cs, ev) == F.WithDirection(cs, direction)
  {
  }

  lemma FrameOfDirection(direction: Ui.Direction, cs: ComputedStyle, ev: Evaluator, f: F.Field)
    requires f != F.Field.Direction
    ensures F.Get(Apply(StyleAttr.Direction(direction), cs, ev), f) == F.Get(cs, f)
  {
    ApplyOfDirection(direction, cs, ev);
    F.SetDirectionKeepsOthers(cs, direction, f);
  }

  lemma ApplyOfLeft(e: Expr, cs: ComputedStyle, ev: Evaluator)
    requires ev.length(e).Some?
    ensures Apply(StyleAttr.Left(e), cs, ev) == F.WithLeft(cs, ev.length(e).value)
  {
  }

  lemma FrameOfLeft(e: Expr, cs: ComputedStyle, ev: Evaluator, f: F.Field)
    requires ev.length(e).Some? ==> f != F.Field.Left
    ensures F.Get(Apply(StyleAttr.Left(e), cs, ev), f) == F.Get(cs, f)
  {
    if ev.length(e).Some? {
      ApplyOfLeft(e, cs, ev);
      F.SetLeftKeepsOthers(cs, ev.length(e).value, f);
    }
  }

  lemma ApplyOfRight(e: Expr, cs: ComputedStyle, ev: Evaluator)
    requires ev.length(e).Some?
    ensures Apply(StyleAttr.Right(e), cs, ev) == F.WithRight(cs, ev.length(e).value)
  {
  }

  lemma FrameOfRight(e: Expr, cs: ComputedStyle, ev: Evaluator, f: F.Field)
    requires ev.length(e).Some? ==> f != F.Field.Right
    ensures F.Get(Apply(StyleAttr.Right(e), cs, ev), f) == F.Get(cs, f)
  {
    if ev.length(e).Some? {
      ApplyOfRight(e, cs, ev);
      F.SetRightKeepsOthers(cs, ev.length(e).value, f);
    }
  }

  lemma ApplyOfTop(e: Expr, cs: ComputedStyle, ev: Evaluator)
    requires ev.length(e).Some?
    ensures Apply(StyleAttr.Top(e), cs, ev) == F.WithTop(cs, ev.length(e).value)
  {
  }

  lemma FrameOfTop(e: Expr, cs: ComputedStyle, ev: Evaluator, f: F.Field)
    requires ev.length(e).Some? ==> f != F.Field.Top
    ensures F.Get(Apply(StyleAttr.Top(e), cs, ev), f) == F.Get(cs, f)
  {
    if ev.length(e).Some? {
      ApplyOfTop(e, cs, ev);
      F.SetTopKeepsOthers(cs, ev.length(e).value, f);
    }
  }

  lemma ApplyOfBottom(e: Expr, cs: ComputedStyle, ev: Evaluator)
    requires ev.length(e).Some?
    ensures Apply(StyleAttr.Bottom(e), cs, ev) == F.WithBottom(cs, ev.length(e).value)
  {
  }

  lemma FrameOfBottom(e: Expr, cs: ComputedStyle, ev: Evaluator, f: F.Field)
    requires ev.length(e).Some? ==> f != F.Field.Bottom
    ensures F.Get(Apply(StyleAttr.Bottom(e), cs, ev), f) == F.Get(cs, f)
  {
    if ev.length(e).Some? {
      ApplyOfBottom(e, cs, ev);
      F.SetBottomKeepsOthers(cs, ev.length(e).value, f);
    }
  }

  lemma ApplyOfWidth(e: Expr, cs: ComputedStyle, ev: Evaluator)
    requires ev.length(e).Some?
    ensures Apply(StyleAttr.Width(e), cs, ev) == F.WithWidth(cs, ev.length(e).value)
  {
  }

  lemma FrameOfWidth(e: Expr, cs: ComputedStyle, ev: Evaluator, f: F.Field)
    requires ev.length(e).Some? ==> f != F.Field.Width
    ensures F.Get(Apply(StyleAttr.Width(e), cs, ev), f) == F.Get(cs, f)
  {
    if ev.length(e).Some? {
      ApplyOfWidth(e, cs, ev);
      F.SetWidthKeepsOthers(cs, ev.length(e).value, f);
    }
  }

  lemma ApplyOfHeight(e: Expr, cs: ComputedStyle, ev: Evaluator)
    requires ev.length(e).Some?
    ensures Apply(StyleAttr.Height(e), cs, ev) == F.WithHeight(cs, ev.length(e).value)
  {
  }

  lemma FrameOfHeight(e: Expr, cs: ComputedStyle, ev: Evaluator, f: F.Field)
    requires ev.length(e).Some? ==> f != F.Field.Height
    ensures F.Get(Apply(StyleAttr.Height(e), cs, ev), f) == F.Get(cs, f)
  {
    if ev.length(e).Some? {
      ApplyOfHeight(e, cs, ev);
      F.SetHeightKeepsOthers(cs, ev.length(e).value, f);
    }
  }

  lemma ApplyOfMinWidth(e: Expr, cs: ComputedStyle, ev: Evaluator)
    requires ev.length(e).Some?
    ensures Apply(StyleAttr.MinWidth(e), cs, ev) == F.WithMinWidth(cs, ev.length(e).value)
  {
  }

  lemma FrameOfMinWidth(e: Expr, cs: ComputedStyle, ev: Evaluator, f: F.Field)
    requires ev.length(e).Some? ==> f != F.Field.MinWidth
    ensures F.Get(Apply(StyleAttr.MinWidth(e), cs, ev), f) == F.Get(cs, f)
  {
    if ev.length(e).Some? {
      ApplyOfMinWidth(e, cs, ev);
      F.SetMinWidthKeepsOthers(cs, ev.length(e).value, f);
    }
  }

  lemma ApplyOfMinHeight(e: Expr, cs: ComputedStyle, ev: Evaluator)
    requires ev.length(e).Some?
    ensures Apply(StyleAttr.MinHeight(e), cs, ev) == F.WithMinHeight(cs, ev.length(e).value)
  {
  }

  lemma FrameOfMinHeight(e: Expr, cs: ComputedStyle, ev: Evaluator, f: F.Field)
    requires ev.length(e).Some? ==> f != F.Field.MinHeight
    ensures F.Get(Apply(StyleAttr.MinHeight(e), cs, ev), f) == F.Get(cs, f)
  {
    if ev.length(e).Some? {
      ApplyOfMinHeight(e, cs, ev);
      F.SetMinHeightKeepsOthers(cs, ev.length(e).value, f);
    }
  }

  lemma ApplyOfMaxWidth(e: Expr, cs: ComputedStyle, ev: Evaluator)
    requires ev.length(e).Some?
    ensures Apply(StyleAttr.MaxWidth(e), cs, ev) == F.WithMaxWidth(cs, ev.length(e).value)
  {
  }

  lemma FrameOfMaxWidth(e: Expr, cs: ComputedStyle, ev: Evaluator, f: F.Field)
    requires ev.length(e).Some? ==> f != F.Field.MaxWidth
    ensures F.Get(Apply(StyleAttr.MaxWidth(e), cs, ev), f) == F.Get(cs, f)
  {
    if ev.length(e).Some? {
      ApplyOfMaxWidth(e, cs, ev);
      F.SetMaxWidthKeepsOthers(cs, ev.length(e).value, f);
    }
  }

  lemma ApplyOfMaxHeight(e: Expr, cs: ComputedStyle, ev: Evaluator)
    requires ev.length(e).Some?
    ensures Apply(StyleAttr.MaxHeight(e), cs, ev) == F.WithMaxHeight(cs, ev.length(e).value)
  {
  }

  lemma FrameOfMaxHeight(e: Expr, cs: ComputedStyle, ev: Evaluator, f: F.Field)
    requires ev.length(e).Some? ==> f != F.Field.MaxHeight
    ensures F.Get(Apply(StyleAttr.MaxHeight(e), cs, ev), f) == F.Get(cs, f)
  {
    if ev.length(e).Some? {
      ApplyOfMaxHeight(e, cs, ev);
      F.SetMaxHeightKeepsOthers(cs, ev.length(e).value, f);
    }
  }

  lemma ApplyOfAlignItems(alignItems: Ui.AlignItems, cs: ComputedStyle, ev: Evaluator)
    ensures Apply(StyleAttr.AlignItems(alignItems), cs, ev) == F.WithAlignItems(cs, alignItems)
  {
  }

  lemma FrameOfAlignItems(alignItems: Ui.AlignItems, cs: ComputedStyle, ev: Evaluator, f: F.Field)
    requires f != F.Field.AlignItems
    ensures F.Get(Apply(StyleAttr.AlignItems(alignItems), cs, ev), f) == F.Get(cs, f)
  {
    ApplyOfAlignItems(alignItems, cs, ev);
    F.SetAlignItemsKeepsOthers(cs, alignItems, f);
  }

  lemma ApplyOfJustifyItems(justifyItems: Ui.JustifyItems, cs: ComputedStyle, ev: Evaluator)
    ensures Apply(StyleAttr.JustifyItems(justifyItems), cs, ev) == F.WithJustifyItems(cs, justifyItems)
  {
  }

  lemma FrameOfJustifyItems(justifyItems: Ui.JustifyItems, cs: ComputedStyle, ev: Evaluator, f: F.Field)
    requires f != F.Field.JustifyItems
    ensures F.Get(Apply(StyleAttr.JustifyItems(justifyItems), cs, ev), f) == F.Get(cs, f)
  {
    ApplyOfJustifyItems(justifyItems, cs, ev);
    F.SetJustifyItemsKeepsOthers(cs, justifyItems, f);
  }

  lemma ApplyOfAlignSelf(alignSelf: Ui.AlignSelf, cs: ComputedStyle, ev: Evaluator)
    ensures Apply(StyleAttr.AlignSelf(alignSelf), cs, ev) == F.WithAlignSelf(cs, alignSelf)
  {
  }

  lemma FrameOfAlignSelf(alignSelf: Ui.AlignSelf, cs: ComputedStyle, ev: Evaluator, f: F.Field)
    requires f != F.Field.AlignSelf
    ensures F.Get(Apply(StyleAttr.AlignSelf(alignSelf), cs, ev), f) == F.Get(cs, f)
  {
    ApplyOfAlignSelf(alignSelf, cs, ev);
    F.SetAlignSelfKeepsOthers(cs, alignSelf, f);
  }

  lemma ApplyOfJustifySelf(justifySelf: Ui.JustifySelf, cs: ComputedStyle, ev: Evaluator)
    ensures Apply(StyleAttr.JustifySelf(justifySelf), cs, ev) == F.WithJustifySelf(cs, justifySelf)
  {
  }

  lemma FrameOfJustifySelf(justifySelf: Ui.JustifySelf, cs: ComputedStyle, ev: Evaluator, f: F.Field)
    requires f != F.Field.JustifySelf
    ensures F.Get(Apply(StyleAttr.JustifySelf(justifySelf), cs, ev), f) == F.Get(cs, f)
  {
    ApplyOfJustifySelf(justifySelf, cs, ev);
    F.SetJustifySelfKeepsOthers(cs, justifySelf, f);
  }

  lemma ApplyOfAlignContent(alignContent: Ui.AlignContent, cs: ComputedStyle, ev: Evaluator)
    ensures Apply(StyleAttr.AlignContent(alignContent), cs, ev) == F.WithAlignContent(cs, alignContent)
  {
  }

  lemma FrameOfAlignContent(alignContent: Ui.AlignContent, cs: ComputedStyle, ev: Evaluator, f: F.Field)
    requires f != F.Field.AlignContent
    ensures F.Get(Apply(StyleAttr.AlignContent(alignContent), cs, ev), f) == F.Get(cs, f)
  {
    ApplyOfAlignContent(alignContent, cs, ev);
    F.SetAlignContentKeepsOthers(cs, alignContent, f);
  }

  lemma ApplyOfJustifyContent(justifyContent: Ui.JustifyContent, cs: ComputedStyle, ev: Evaluator)
    ensures Apply(StyleAttr.JustifyContent(justifyContent), cs, ev) == F.WithJustifyContent(cs, justifyContent)
  {
  }

  lemma FrameOfJustifyContent(justifyContent: Ui.JustifyContent, cs: ComputedStyle, ev: Evaluator, f: F.Field)
    requires f != F.Field.JustifyContent
    ensures F.Get(Apply(StyleAttr.JustifyContent(justifyContent), cs, ev), f) == F.Get(cs, f)
  {
    ApplyOfJustifyContent(justifyContent, cs, ev);
    F.SetJustifyContentKeepsOthers(cs, justifyContent, f);
  }

  lemma ApplyOfMargin(e: Expr, cs: ComputedStyle, ev: Evaluator)
    requires ev.rect(e).Some?
    ensures Apply(StyleAttr.Margin(e), cs, ev) == F.WithMargin(cs, ev.rect(e).value)
  {
  }

  lemma FrameOfMargin(e: Expr, cs: ComputedStyle, ev: Evaluator, f: F.Field)
    requires ev.rect(e).Some? ==> f != F.Field.MarginLeft && f != F.Field.MarginRight && f != F.Field.MarginTop && f != F.Field.MarginBottom
    ensures F.Get(Apply(StyleAttr.Margin(e), cs, ev), f) == F.Get(cs, f)
  {
    if ev.rect(e).Some? {
      ApplyOfMargin(e, cs, ev);
      F.SetMarginKeepsOthers(cs, ev.rect(e).value, f);
    }
  }

  lemma ApplyOfMarginLeft(e: Expr, cs: ComputedStyle, ev: Evaluator)
    requires ev.length(e).Some?
    ensures Apply(StyleAttr.MarginLeft(e), cs, ev) == F.WithMarginLeft(cs, ev.length(e).value)
  {
  }

  lemma FrameOfMarginLeft(e: Expr, cs: ComputedStyle, ev: Evaluator, f: F.Field)
    requires ev.length(e).Some? ==> f != F.Field.MarginLeft
    ensures F.Get(Apply(StyleAttr.MarginLeft(e), cs, ev), f) == F.Get(cs, f)
  {
    if ev.length(e).Some? {
      ApplyOfMarginLeft(e, cs, ev);
      F.SetMarginLeftKeepsOthers(cs, ev.length(e).value, f);
    }
  }

  lemma ApplyOfMarginRight(e: Expr, cs: ComputedStyle, ev: Evaluator)
    requires ev.length(e).Some?
    ensures Apply(StyleAttr.MarginRight(e), cs, ev) == F.WithMarginRight(cs, ev.length(e).value)
  {
  }

  lemma FrameOfMarginRight(e: Expr, cs: ComputedStyle, ev: Evaluator, f: F.Field)
    requires ev.length(e).Some? ==> f != F.Field.MarginRight
    ensures F.Get(Apply(StyleAttr.MarginRight(e), cs, ev), f) == F.Get(cs, f)
  {
    if ev.length(e).Some? {
      ApplyOfMarginRight(e, cs, ev);
      F.SetMarginRightKeepsOthers(cs, ev.length(e).value, f);
    }
  }

  lemma ApplyOfMarginTop(e: Expr, cs: ComputedStyle, ev: Evaluator)
    requires ev.length(e).Some?
    ensures Apply(StyleAttr.MarginTop(e), cs, ev) == F.WithMarginTop(cs, ev.length(e).value)
  {
  }

  lemma FrameOfMarginTop(e: Expr, cs: ComputedStyle, ev: Evaluator, f: F.Field)
    requires ev.length(e).Some? ==> f != F.Field.MarginTop
    ensures F.Get(Apply(StyleAttr.MarginTop(e), cs, ev), f) == F.Get(cs, f)
  {
    if ev.length(e).Some? {
      ApplyOfMarginTop(e, cs, ev);
      F.SetMarginTopKeepsOthers(cs, ev.length(e).value, f);
    }
  }

  lemma ApplyOfMarginBottom(e: Expr, cs: ComputedStyle, ev: Evaluator)
    requires ev.length(e).Some?
    ensures Apply(StyleAttr.MarginBottom(e), cs, ev) == F.WithMarginBottom(cs, ev.length(e).value)
  {
  }

  lemma FrameOfMarginBottom(e: Expr, cs: ComputedStyle, ev: Evaluator, f: F.Field)
    requires ev.length(e).Some? ==> f != F.Field.MarginBottom
    ensures F.Get(Apply(StyleAttr.MarginBottom(e), cs, ev), f) == F.Get(cs, f)
  {
    if ev.length(e).Some? {
      ApplyOfMarginBottom(e, cs, ev);
      F.SetMarginBottomKeepsOthers(cs, ev.length(e).value, f);
    }
  }

  lemma ApplyOfPadding(e: Expr, cs: ComputedStyle, ev: Evaluator)
    requires ev.rect(e).Some?
    ensures Apply(StyleAttr.Padding(e), cs, ev) == F.WithPadding(cs, ev.rect(e).value)
  {
  }

  lemma FrameOfPadding(e: Expr, cs: ComputedStyle, ev: Evaluator, f: F.Field)
    requires ev.rect(e).Some? ==> f != F.Field.PaddingLeft && f != F.Field.PaddingRight && f != F.Field.PaddingTop && f != F.Field.PaddingBottom
    ensures F.Get(Apply(StyleAttr.Padding(e), cs, ev), f) == F.Get(cs, f)
  {
    if ev.rect(e).Some? {
      ApplyOfPadding(e, cs, ev);
      F.SetPaddingKeepsOthers(cs, ev.rect(e).value, f);
    }
  }

  lemma ApplyOfPaddingLeft(e: Expr, cs: ComputedStyle, ev: Evaluator)
    requires ev.length(e).Some?
    ensures Apply(StyleAttr.PaddingLeft(e), cs, ev) == F.WithPaddingLeft(cs, ev.length(e).value)
  {
  }

  lemma FrameOfPaddingLeft(e: Expr, cs: ComputedStyle, ev: Evaluator, f: F.Field)
    requires ev.length(e).Some? ==> f != F.Field.PaddingLeft
    ensures F.Get(Apply(StyleAttr.PaddingLeft(e), cs, ev), f) == F.Get(cs, f)
  {
    if ev.length(e).Some? {
      ApplyOfPaddingLeft(e, cs, ev);
      F.SetPaddingLeftKeepsOthers(cs, ev.length(e).value, f);
    }
  }

  lemma ApplyOfPaddingRight(e: Expr, cs: ComputedStyle, ev: Evaluator)
    requires ev.length(e).Some?
    ensures Apply(StyleAttr.PaddingRight(e), cs, ev) == F.WithPaddingRight(cs, ev.length(e).value)
  {
  }

  lemma FrameOfPaddingRight(e: Expr, cs: ComputedStyle, ev: Evaluator, f: F.Field)
    requires ev.length(e).Some? ==> f != F.Field.PaddingRight
    ensures F.Get(Apply(StyleAttr.PaddingRight(e), cs, ev), f) == F.Get(cs, f)
  {
    if ev.length(e).Some? {
      ApplyOfPaddingRight(e, cs, ev);
      F.SetPaddingRightKeepsOthers(cs, ev.length(e).value, f);
    }
  }

  lemma ApplyOfPaddingTop(e: Expr, cs: ComputedStyle, ev: Evaluator)
    requires ev.length(e).Some?
    ensures Apply(StyleAttr.PaddingTop(e), cs, ev) == F.WithPaddingTop(cs, ev.length(e).value)
  {
  }

  lemma FrameOfPaddingTop(e: Expr, cs: ComputedStyle, ev: Evaluator, f: F.Field)
    requires ev.length(e).Some? ==> f != F.Field.PaddingTop
    ensures F.Get(Apply(StyleAttr.PaddingTop(e), cs, ev), f) == F.Get(cs, f)
  {
    if ev.length(e).Some? {
      ApplyOfPaddingTop(e, cs, ev);
      F.SetPaddingTopKeepsOthers(cs, ev.length(e).value, f);
    }
  }

  lemma ApplyOfPaddingBottom(e: Expr, cs: ComputedStyle, ev: Evaluator)
    requires ev.length(e).Some?
    ensures Apply(StyleAttr.PaddingBottom(e), cs, ev) == F.WithPaddingBottom(cs, ev.length(e).value)
  {
  }

  lemma FrameOfPaddingBottom(e: Expr, cs: ComputedStyle, ev: Evaluator, f: F.Field)
    requires ev.length(e).Some? ==> f != F.Field.PaddingBottom
    ensures F.Get(Apply(StyleAttr.PaddingBottom(e), cs, ev), f) == F.Get(cs, f)
  {
    if ev.length(e).Some? {
      ApplyOfPaddingBottom(e, cs, ev);
      F.SetPaddingBottomKeepsOthers(cs, ev.length(e).value, f);
    }
  }

  lemma ApplyOfBorder(e: Expr, cs: ComputedStyle, ev: Evaluator)
    requires ev.rect(e).Some?
    ensures Apply(StyleAttr.Border(e), cs, ev) == F.WithBorder(cs, ev.rect(e).value)
  {
  }

  lemma FrameOfBorder(e: Expr, cs: ComputedStyle, ev: Evaluator, f: F.Field)
    requires ev.rect(e).Some? ==> f != F.Field.BorderLeft && f != F.Field.BorderRight && f != F.Field.BorderTop && f != F.Field.BorderBottom
    ensures F.Get(Apply(StyleAttr.Border(e), cs, ev), f) == F.Get(cs, f)
  {
    if ev.rect(e).Some? {
      ApplyOfBorder(e, cs, ev);
      F.SetBorderKeepsOthers(cs, ev.rect(e).value, f);
    }
  }

  lemma ApplyOfBorderLeft(e: Expr, cs: ComputedStyle, ev: Evaluator)
    requires ev.length(e).Some?
    ensures Apply(StyleAttr.BorderLeft(e), cs, ev) == F.WithBorderLeft(cs, ev.length(e).value)
  {
  }

  lemma FrameOfBorderLeft(e: Expr, cs: ComputedStyle, ev: Evaluator, f: F.Field)
    requires ev.length(e).Some? ==> f != F.Field.BorderLeft
    ensures F.Get(Apply(StyleAttr.BorderLeft(e), cs, ev), f) == F.Get(cs, f)
  {
    if ev.length(e).Some? {
      ApplyOfBorderLeft(e, cs, ev);
      F.SetBorderLeftKeepsOthers(cs, ev.length(e).value, f);
    }
  }

  lemma ApplyOfBorderRight(e: Expr, cs: ComputedStyle, ev: Evaluator)
    requires ev.length(e).Some?
    ensures Apply(StyleAttr.BorderRight(e), cs, ev) == F.WithBorderRight(cs, ev.length(e).value)
  {
  }

  lemma FrameOfBorderRight(e: Expr, cs: ComputedStyle, ev: Evaluator, f: F.Field)
    requires ev.length(e).Some? ==> f != F.Field.BorderRight
    ensures F.Get(Apply(StyleAttr.BorderRight(e), cs, ev), f) == F.Get(cs, f)
  {
    if ev.length(e).Some? {
      ApplyOfBorderRight(e, cs, ev);
      F.SetBorderRightKeepsOthers(cs, ev.length(e).value, f);
    }
  }

  lemma ApplyOfBorderTop(e: Expr, cs: ComputedStyle, ev: Evaluator)
    requires ev.length(e).Some?
    ensures Apply(StyleAttr.BorderTop(e), cs, ev) == F.WithBorderTop(cs, ev.length(e).value)
  {
  }

  lemma FrameOfBorderTop(e: Expr, cs: ComputedStyle, ev: Evaluator, f: F.Field)
    requires ev.length(e).Some? ==> f != F.Field.BorderTop
    ensures F.Get(Apply(StyleAttr.BorderTop(e), cs, ev), f) == F.Get(cs, f)
  {
    if ev.length(e).Some? {
      ApplyOfBorderTop(e, cs, ev);
      F.SetBorderTopKeepsOthers(cs, ev.length(e).value, f);
    }
  }

  lemma ApplyOfBorderBottom(e: Expr, cs: ComputedStyle, ev: Evaluator)
    requires ev.length(e).Some?
    ensures Apply(StyleAttr.BorderBottom(e), cs, ev) == F.WithBorderBottom(cs, ev.length(e).value)
  {
  }

  lemma FrameOfBorderBottom(e: Expr, cs: ComputedStyle, ev: Evaluator, f: F.Field)
    requires ev.length(e).Some? ==> f != F.Field.BorderBottom
    ensures F.Get(Apply(StyleAttr.BorderBottom(e), cs, ev), f) == F.Get(cs, f)
  {
    if ev.length(e).Some? {
      ApplyOfBorderBottom(e, cs, ev);
      F.SetBorderBottomKeepsOthers(cs, ev.length(e).value, f);
    }
  }

  lemma ApplyOfFlexDirection(flexDirection: Ui.FlexDirection, cs: ComputedStyle, ev: Evaluator)
    ensures Apply(StyleAttr.FlexDirection(flexDirection), cs, ev) == F.WithFlexDirection(cs, flexDirection)
  {
  }

  lemma FrameOfFlexDirection(flexDirection: Ui.FlexDirection, cs: ComputedStyle, ev: Evaluator, f: F.Field)
    requires f != F.Field.FlexDirection
    ensures F.Get(Apply(StyleAttr.FlexDirection(flexDirection), cs, ev), f) == F.Get(cs, f)
  {
    ApplyOfFlexDirection(flexDirection, cs, ev);
    F.SetFlexDirectionKeepsOthers(cs, flexDirection, f);
  }

  lemma ApplyOfFlexWrap(flexWrap: Ui.FlexWrap, cs: ComputedStyle, ev: Evaluator)
    ensures Apply(StyleAttr.FlexWrap(flexWrap), cs, ev) == F.WithFlexWrap(cs, flexWrap)
  {
  }

  lemma FrameOfFlexWrap(flexWrap: Ui.FlexWrap, cs: ComputedStyle, ev: Evaluator, f: F.Field)
    requires f != F.Field.FlexWrap
    ensures F.Get(Apply(StyleAttr.FlexWrap(flexWrap), cs, ev), f) == F.Get(cs, f)
  {
    ApplyOfFlexWrap(flexWrap, cs, ev);
    F.SetFlexWrapKeepsOthers(cs, flexWrap, f);
  }

  lemma ApplyOfFlexGrow(e: Expr, cs: ComputedStyle, ev: Evaluator)
    requires ev.scalar(e).Some?
    ensures Apply(StyleAttr.FlexGrow(e), cs, ev) == F.WithFlexGrow(cs, ev.scalar(e).value)
  {
  }

  lemma FrameOfFlexGrow(e: Expr, cs: ComputedStyle, ev: Evaluator, f: F.Field)
    requires ev.scalar(e).Some? ==> f != F.Field.FlexGrow
    ensures F.Get(Apply(StyleAttr.FlexGrow(e), cs, ev), f) == F.Get(cs, f)
  {
    if ev.scalar(e).Some? {
      ApplyOfFlexGrow(e, cs, ev);
      F.SetFlexGrowKeepsOthers(cs, ev.scalar(e).value, f);
    }
  }

  lemma ApplyOfFlexShrink(e: Expr, cs: ComputedStyle, ev: Evaluator)
    requires ev.scalar(e).Some?
    ensures Apply(StyleAttr.FlexShrink(e), cs, ev) == F.WithFlexShrink(cs, ev.scalar(e).value)
  {
  }

  lemma FrameOfFlexShrink(e: Expr, cs: ComputedStyle, ev: Evaluator, f: F.Field)
    requires ev.scalar(e).Some? ==> f != F.Field.FlexShrink
    ensures F.Get(Apply(StyleAttr.FlexShrink(e), cs, ev), f) == F.Get(cs, f)
  {
    if ev.scalar(e).Some? {
      ApplyOfFlexShrink(e, cs, ev);
      F.SetFlexShrinkKeepsOthers(cs, ev.scalar(e).value, f);
    }
  }

  lemma ApplyOfFlexBasis(length: Val, cs: ComputedStyle, ev: Evaluator)
    ensures Apply(StyleAttr.FlexBasis(length), cs, ev) == F.WithFlexBasis(cs, length)
  {
  }

  lemma FrameOfFlexBasis(length: Val, cs: ComputedStyle, ev: Evaluator, f: F.Field)
    requires f != F.Field.FlexBasis
    ensures F.Get(Apply(StyleAttr.FlexBasis(length), cs, ev), f) == F.Get(cs, f)
  {
    ApplyOfFlexBasis(length, cs, ev);
    F.SetFlexBasisKeepsOthers(cs, length, f);
  }

  lemma ApplyOfRowGap(length: Val, cs: ComputedStyle, ev: Evaluator)
    ensures Apply(StyleAttr.RowGap(length), cs, ev) == F.WithRowGap(cs, length)
  {
  }

  lemma FrameOfRowGap(length: Val, cs: ComputedStyle, ev: Evaluator, f: F.Field)
    requires f != F.Field.RowGap
    ensures F.Get(Apply(StyleAttr.RowGap(length), cs, ev), f) == F.Get(cs, f)
  {
    ApplyOfRowGap(length, cs, ev);
    F.SetRowGapKeepsOthers(cs, length, f);
  }

  lemma ApplyOfColumnGap(length: Val, cs: ComputedStyle, ev: Evaluator)
    ensures Apply(StyleAttr.ColumnGap(length), cs, ev) == F.WithColumnGap(cs, length)
  {
  }

  lemma FrameOfColumnGap(length: Val, cs: ComputedStyle, ev: Evaluator, f: F.Field)
    requires f != F.Field.ColumnGap
    ensures F.Get(Apply(StyleAttr.ColumnGap(length), cs, ev), f) == F.Get(cs, f)
  {
    ApplyOfColumnGap(length, cs, ev);
    F.SetColumnGapKeepsOthers(cs, length, f);
  }

  lemma ApplyOfGap(length: Val, cs: ComputedStyle, ev: Evaluator)
    ensures Apply(StyleAttr.Gap(length), cs, ev) == F.WithGaps(cs, length)
  {
  }

  lemma FrameOfGap(length: Val, cs: ComputedStyle, ev: Evaluator, f: F.Field)
    requires f != F.Field.RowGap && f != F.Field.ColumnGap
    ensures F.Get(Apply(StyleAttr.Gap(length), cs, ev), f) == F.Get(cs, f)
  {
    ApplyOfGap(length, cs, ev);
    F.SetGapsKeepsOthers(cs, length, f);
  }

  lemma ApplyOfGridAutoFlow(gridAutoFlow: Ui.GridAutoFlow, cs: ComputedStyle, ev: Evaluator)
    ensures Apply(StyleAttr.GridAutoFlow(gridAutoFlow), cs, ev) == F.WithGridAutoFlow(cs, gridAutoFlow)
  {
  }

  lemma FrameOfGridAutoFlow(gridAutoFlow: Ui.GridAutoFlow, cs: ComputedStyle, ev: Evaluator, f: F.Field)
    requires f != F.Field.GridAutoFlow
    ensures F.Get(Apply(StyleAttr.GridAutoFlow(gridAutoFlow), cs, ev), f) == F.Get(cs, f)
  {
    ApplyOfGridAutoFlow(gridAutoFlow, cs, ev);
    F.SetGridAutoFlowKeepsOthers(cs, gridAutoFlow, f);
  }

  lemma ApplyOfGridRow(placement: GridPlacement, cs: ComputedStyle, ev: Evaluator)
    ensures Apply(StyleAttr.GridRow(placement), cs, ev) == F.WithGridRow(cs, placement)
  {
  }

  lemma FrameOfGridRow(placement: GridPlacement, cs: ComputedStyle, ev: Evaluator, f: F.Field)
    requires f != F.Field.GridRowStart && f != F.Field.GridRowSpan && f != F.Field.GridRowEnd
    ensures F.Get(Apply(StyleAttr.GridRow(placement), cs, ev), f) == F.Get(cs, f)
  {
    ApplyOfGridRow(placement, cs, ev);
    F.SetGridRowKeepsOthers(cs, placement, f);
  }

  lemma ApplyOfGridRowStart(line: I16, cs: ComputedStyle, ev: Evaluator)
    ensures Apply(StyleAttr.GridRowStart(line), cs, ev) == F.WithGridRowStart(cs, line)
  {
  }

  lemma FrameOfGridRowStart(line: I16, cs: ComputedStyle, ev: Evaluator, f: F.Field)
    requires f != F.Field.GridRowStart
    ensures F.Get(Apply(StyleAttr.GridRowStart(line), cs, ev), f) == F.Get(cs, f)
  {
    ApplyOfGridRowStart(line, cs, ev);
    F.SetGridRowStartKeepsOthers(cs, line, f);
  }

  lemma ApplyOfGridRowSpan(span: U16, cs: ComputedStyle, ev: Evaluator)
    ensures Apply(StyleAttr.GridRowSpan(span), cs, ev) == F.WithGridRowSpan(cs, span)
  {
  }

  lemma FrameOfGridRowSpan(span: U16, cs: ComputedStyle, ev: Evaluator, f: F.Field)
    requires f != F.Field.GridRowSpan
    ensures F.Get(Apply(StyleAttr.GridRowSpan(span), cs, ev), f) == F.Get(cs, f)
  {
    ApplyOfGridRowSpan(span, cs, ev);
    F.SetGridRowSpanKeepsOthers(cs, span, f);
  }

  lemma ApplyOfGridRowEnd(line: I16, cs: ComputedStyle, ev: Evaluator)
    ensures Apply(StyleAttr.GridRowEnd(line), cs, ev) == F.WithGridRowEnd(cs, line)
  {
  }

  lemma FrameOfGridRowEnd(line: I16, cs: ComputedStyle, ev: Evaluator, f: F.Field)
    requires f != F.Field.GridRowEnd
    ensures F.Get(Apply(StyleAttr.GridRowEnd(line), cs, ev), f) == F.Get(cs, f)
  {
    ApplyOfGridRowEnd(line, cs, ev);
    F.SetGridRowEndKeepsOthers(cs, line, f);
  }

  lemma ApplyOfGridColumn(placement: GridPlacement, cs: ComputedStyle, ev: Evaluator)
    ensures Apply(StyleAttr.GridColumn(placement), cs, ev) == F.WithGridColumn(cs, placement)
  {
  }

  lemma FrameOfGridColumn(placement: GridPlacement, cs: ComputedStyle, ev: Evaluator, f: F.Field)
    requires f != F.Field.GridColumnStart && f != F.Field.GridColumnSpan && f != F.Field.GridColumnEnd
    ensures F.Get(Apply(StyleAttr.GridColumn(placement), cs, ev), f) == F.Get(cs, f)
  {
    ApplyOfGridColumn(placement, cs, ev);
    F.SetGridColumnKeepsOthers(cs, placement, f);
  }

  lemma ApplyOfGridColumnStart(line: I16, cs: ComputedStyle, ev: Evaluator)
    ensures Apply(StyleAttr.GridColumnStart(line), cs, ev) == F.WithGridColumnStart(cs, line)
  {
  }

  lemma FrameOfGridColumnStart(line: I16, cs: ComputedStyle, ev: Evaluator, f: F.Field)
    requires f != F.Field.GridColumnStart
    ensures F.Get(Apply(StyleAttr.GridColumnStart(line), cs, ev), f) == F.Get(cs, f)
  {
    ApplyOfGridColumnStart(line, cs, ev);
    F.SetGridColumnStartKeepsOthers(cs, line, f);
  }

  lemma ApplyOfGridColumnSpan(span: U16, cs: ComputedStyle, ev: Evaluator)
    ensures Apply(StyleAttr.GridColumnSpan(span), cs, ev) == F.WithGridColumnSpan(cs, span)
  {
  }

  lemma FrameOfGridColumnSpan(span: U16, cs: ComputedStyle, ev: Evaluator, f: F.Field)
    requires f != F.Field.GridColumnSpan
    ensures F.Get(Apply(StyleAttr.GridColumnSpan(span), cs, ev), f) == F.Get(cs, f)
  {
    ApplyOfGridColumnSpan(span, cs, ev);
    F.SetGridColumnSpanKeepsOthers(cs, span, f);
  }

  lemma ApplyOfGridColumnEnd(line: I16, cs: ComputedStyle, ev: Evaluator)
    ensures Apply(StyleAttr.GridColumnEnd(line), cs, ev) == F.WithGridColumnEnd(cs, line)
  {
  }

  lemma FrameOfGridColumnEnd(line: I16, cs: ComputedStyle, ev: Evaluator, f: F.Field)
    requires f != F.Field.GridColumnEnd
    ensures F.Get(Apply(StyleAttr.GridColumnEnd(line), cs, ev), f) == F.Get(cs, f)
  {
    ApplyOfGridColumnEnd(line, cs, ev);
    F.SetGridColumnEndKeepsOthers(cs, line, f);
  }

  lemma ApplyOfLineBreak(lineBreak: BreakLineOn, cs: ComputedStyle, ev: Evaluator)
    ensures Apply(StyleAttr.LineBreak(lineBreak), cs, ev) == F.WithLineBreak(cs, Some(lineBreak))
  {
  }

  lemma FrameOfLineBreak(lineBreak: BreakLineOn, cs: ComputedStyle, ev: Evaluator, f: F.Field)
    requires f != F.Field.LineBreak
    ensures F.Get(Apply(StyleAttr.LineBreak(lineBreak), cs, ev), f) == F.Get(cs, f)
  {
    ApplyOfLineBreak(lineBreak, cs, ev);
    F.SetLineBreakKeepsOthers(cs, Some(lineBreak), f);
  }


  /** `overflow` sets both axes to its value; no other field changes. */
  lemma OverflowSetsBothAxes(a: OverflowAxis, cs: ComputedStyle, ev: Evaluator)
    ensures Apply(StyleAttr.Overflow(a), cs, ev).style.overflow == Ui.Overflow(a, a)
    ensures forall f :: f != F.OverflowX && f != F.OverflowY ==> F.Get(Apply(StyleAttr.Overflow(a), cs, ev), f) == F.Get(cs, f)
  {
    forall f | f != F.OverflowX && f != F.OverflowY {
      ApplyFrame(StyleAttr.Overflow(a), cs, ev, f);
    }
  }

  /** `overflow-x` sets the horizontal axis and keeps the vertical one (and every other field). */
  lemma OverflowXSetsOneAxis(a: OverflowAxis, cs: ComputedStyle, ev: Evaluator)
    ensures Apply(OverflowX(a), cs, ev).style.overflow == Ui.Overflow(a, cs.style.overflow.y)
    ensures forall f :: f != F.OverflowX ==> F.Get(Apply(OverflowX(a), cs, ev), f) == F.Get(cs, f)
  {
    forall f | f != F.OverflowX {
      ApplyFrame(OverflowX(a), cs, ev, f);
    }
  }

  /** `overflow-y` sets the vertical axis and keeps the horizontal one (and every other field). */
  lemma OverflowYSetsOneAxis(a: OverflowAxis, cs: ComputedStyle, ev: Evaluator)
    ensures Apply(OverflowY(a), cs, ev).style.overflow == Ui.Overflow(cs.style.overflow.x, a)
    ensures forall f :: f != F.OverflowY ==> F.Get(Apply(OverflowY(a), cs, ev), f) == F.Get(cs, f)
  {
    forall f | f != F.OverflowY {
      ApplyFrame(OverflowY(a), cs, ev, f);
    }
  }

  /** `gap` sets the row gap and the column gap to its value; no other field changes. */
  lemma GapSetsBothGaps(v: Val, cs: ComputedStyle, ev: Evaluator)
    ensures Apply(Gap(v), cs, ev).style.rowGap == v && Apply(Gap(v), cs, ev).style.columnGap == v
    ensures forall f :: f != F.RowGap && f != F.ColumnGap ==> F.Get(Apply(Gap(v), cs, ev), f) == F.Get(cs, f)
  {
    forall f | f != F.RowGap && f != F.ColumnGap {
      ApplyFrame(Gap(v), cs, ev, f);
    }
  }

  /** `row-gap` sets the row gap only. */
  lemma RowGapSetsOneGap(v: Val, cs: ComputedStyle, ev: Evaluator)
    ensures Apply(RowGap(v), cs, ev).style.rowGap == v
    ensures forall f :: f != F.RowGap ==> F.Get(Apply(RowGap(v), cs, ev), f) == F.Get(cs, f)
  {
    forall f | f != F.RowGap {
      ApplyFrame(RowGap(v), cs, ev, f);
    }
  }

  /** `column-gap` sets the column gap only. */
  lemma ColumnGapSetsOneGap(v: Val, cs: ComputedStyle, ev: Evaluator)
    ensures Apply(ColumnGap(v), cs, ev).style.columnGap == v
    ensures forall f :: f != F.ColumnGap ==> F.Get(Apply(ColumnGap(v), cs, ev), f) == F.Get(cs, f)
  {
    forall f | f != F.ColumnGap {
      ApplyFrame(ColumnGap(v), cs, ev, f);
    }
  }

  /** A side setter that converts changes that side of the margin only. */
  lemma MarginLeftSetsOneSide(e: Expr, cs: ComputedStyle, ev: Evaluator)
    requires ev.length(e).Some?
    ensures Apply(MarginLeft(e), cs, ev).style.margin ==
            UiRect(ev.length(e).value, cs.style.margin.right, cs.style.margin.top, cs.style.margin.bottom)
    ensures forall f :: f != F.MarginLeft ==> F.Get(Apply(MarginLeft(e), cs, ev), f) == F.Get(cs, f)
  {
    forall f | f != F.MarginLeft {
      ApplyFrame(MarginLeft(e), cs, ev, f);
    }
  }

  /** A z-index that converts is stored as present. */
  lemma ZIndexSetsPresent(e: Expr, cs: ComputedStyle, ev: Evaluator)
    requires ev.int32(e).Some?
    ensures Apply(ZIndex(e), cs, ev).zIndex == Some(ev.int32(e).value)
  {
  }

  /** `line-break` always stores its mode as present. */
  lemma LineBreakSetsPresent(b: BreakLineOn, cs: ComputedStyle, ev: Evaluator)
    ensures Apply(LineBreak(b), cs, ev).lineBreak == Some(b)
    ensures forall f :: f != F.LineBreak ==> F.Get(Apply(LineBreak(b), cs, ev), f) == F.Get(cs, f)
  {
    forall f | f != F.LineBreak {
      ApplyFrame(LineBreak(b), cs, ev, f);
    }
  }

  /** `grid-row-start` sets the start line of the row placement and keeps its span and end. */
  lemma GridRowStartSetsStart(v: I16, cs: ComputedStyle, ev: Evaluator)
    ensures Apply(GridRowStart(v), cs, ev).style.gridRow ==
            GridPlacement(Some(v), cs.style.gridRow.span, cs.style.gridRow.end)
    ensures forall f :: f != F.GridRowStart ==> F.Get(Apply(GridRowStart(v), cs, ev), f) == F.Get(cs, f)
  {
    forall f | f != F.GridRowStart {
      ApplyFrame(GridRowStart(v), cs, ev, f);
    }
  }

  /** `grid-column-span` sets the span of the column placement and keeps its start and end. */
  lemma GridColumnSpanSetsSpan(v: U16, cs: ComputedStyle, ev: Evaluator)
    ensures Apply(GridColumnSpan(v), cs, ev).style.gridColumn ==
            GridPlacement(cs.style.gridColumn.start, Some(v), cs.style.gridColumn.end)
    ensures forall f :: f != F.GridColumnSpan ==> F.Get(Apply(GridColumnSpan(v), cs, ev), f) == F.Get(cs, f)
  {
    forall f | f != F.GridColumnSpan {
      ApplyFrame(GridColumnSpan(v), cs, ev, f);
    }
  }

  /** The grid-line setters: start, span or end of one axis. */
  predicate IsGridLineSetter(attr: StyleAttr) {
    attr.GridRowStart? || attr.GridRowSpan? || attr.GridRowEnd? ||
    attr.GridColumnStart? || attr.GridColumnSpan? || attr.GridColumnEnd?
  }

  /**
   * `apply` as the source writes it. Grid placement setters take the placement by value and
   * return the updated copy (the parser chains them that way); `apply` calls them on the
   * computed style's field and drops the copy, so a grid-line setter changes nothing. Every
   * other arm is the same as in `Apply`.
   */
  function ApplyAsWritten(attr: StyleAttr, cs: ComputedStyle, ev: Evaluator): ComputedStyle {
    match attr
    case BackgroundColor(e) => if ev.color(e).Some? then F.WithBackgroundColor(cs, ev.color(e).value) else cs
    case BorderColor(e) => if ev.color(e).Some? then F.WithBorderColor(cs, ev.color(e).value) else cs
    case Color(e) => if ev.color(e).Some? then F.WithTextColor(cs, ev.color(e).value) else cs
    case ZIndex(e) => if ev.int32(e).Some? then F.WithZIndex(cs, Some(ev.int32(e).value)) else cs
    case Display(e) => if ev.display(e).Some? then F.WithDisplay(cs, ev.display(e).value) else cs
    case Position(position) => F.WithPositionType(cs, position)
    case Overflow(axis) => F.WithOverflow(cs, Ui.Overflow(axis, axis))
    case OverflowX(axis) => F.WithOverflowX(cs, axis)
    case OverflowY(axis) => F.WithOverflowY(cs, axis)
    case Direction(direction) => F.WithDirection(cs, direction)
    case Left(e) => if ev.length(e).Some? then F.WithLeft(cs, ev.length(e).value) else cs
    case Right(e) => if ev.length(e).Some? then F.WithRight(cs, ev.length(e).value) else cs
    case Top(e) => if ev.length(e).Some? then F.WithTop(cs, ev.length(e).value) else cs
    case Bottom(e) => if ev.length(e).Some? then F.WithBottom(cs, ev.length(e).value) else cs
    case Width(e) => if ev.length(e).Some? then F.WithWidth(cs, ev.length(e).value) else cs
    case Height(e) => if ev.length(e).Some? then F.WithHeight(cs, ev.length(e).value) else cs
    case MinWidth(e) => if ev.length(e).Some? then F.WithMinWidth(cs, ev.length(e).value) else cs
    case MinHeight(e) => if ev.length(e).Some? then F.WithMinHeight(cs, ev.length(e).value) else cs
    case MaxWidth(e) => if ev.length(e).Some? then F.WithMaxWidth(cs, ev.length(e).value) else cs
    case MaxHeight(e) => if ev.length(e).Some? then F.WithMaxHeight(cs, ev.length(e).value) else cs
    case AlignItems(alignItems) => F.WithAlignItems(cs, alignItems)
    case JustifyItems(justifyItems) => F.WithJustifyItems(cs, justifyItems)
    case AlignSelf(alignSelf) => F.WithAlignSelf(cs, alignSelf)
    case JustifySelf(justifySelf) => F.WithJustifySelf(cs, justifySelf)
    case AlignContent(alignContent) => F.WithAlignContent(cs, alignContent)
    case JustifyContent(justifyContent) => F.WithJustifyContent(cs, justifyContent)
    case Margin(e) => if ev.rect(e).Some? then F.WithMargin(cs, ev.rect(e).value) else cs
    case MarginLeft(e) => if ev.length(e).Some? then F.WithMarginLeft(cs, ev.length(e).value) else cs
    case MarginRight(e) => if ev.length(e).Some? then F.WithMarginRight(cs, ev.length(e).value) else cs
    case MarginTop(e) => if ev.length(e).Some? then F.WithMarginTop(cs, ev.length(e).value) else cs
    case MarginBottom(e) => if ev.length(e).Some? then F.WithMarginBottom(cs, ev.length(e).value) else cs
    case Padding(e) => if ev.rect(e).Some? then F.WithPadding(cs, ev.rect(e).value) else cs
    case PaddingLeft(e) => if ev.length(e).Some? then F.WithPaddingLeft(cs, ev.length(e).value) else cs
    case PaddingRight(e) => if ev.length(e).Some? then F.WithPaddingRight(cs, ev.length(e).value) else cs
    case PaddingTop(e) => if ev.length(e).Some? then F.WithPaddingTop(cs, ev.length(e).value) else cs
    case PaddingBottom(e) => if ev.length(e).Some? then F.WithPaddingBottom(cs, ev.length(e).value) else cs
    case Border(e) => if ev.rect(e).Some? then F.WithBorder(cs, ev.rect(e).value) else cs
    case BorderLeft(e) => if ev.length(e).Some? then F.WithBorderLeft(cs, ev.length(e).value) else cs
    case BorderRight(e) => if ev.length(e).Some? then F.WithBorderRight(cs, ev.length(e).value) else cs
    case BorderTop(e) => if ev.length(e).Some? then F.WithBorderTop(cs, ev.length(e).value) else cs
    case BorderBottom(e) => if ev.length(e).Some? then F.WithBorderBottom(cs, ev.length(e).value) else cs
    case FlexDirection(flexDirection) => F.WithFlexDirection(cs, flexDirection)
    case FlexWrap(flexWrap) => F.WithFlexWrap(cs, flexWrap)
    case FlexGrow(e) => if ev.scalar(e).Some? then F.WithFlexGrow(cs, ev.scalar(e).value) else cs
    case FlexShrink(e) => if ev.scalar(e).Some? then F.WithFlexShrink(cs, ev.scalar(e).value) else cs
    case FlexBasis(length) => F.WithFlexBasis(cs, length)
    case RowGap(length) => F.WithRowGap(cs, length)
    case ColumnGap(length) => F.WithColumnGap(cs, length)
    case Gap(length) => F.WithGaps(cs, length)
    case GridAutoFlow(gridAutoFlow) => F.WithGridAutoFlow(cs, gridAutoFlow)
    case GridRow(placement) => F.WithGridRow(cs, placement)
    case GridRowStart(line) => var _ := cs.style.gridRow.SetStart(line); cs
    case GridRowSpan(span) => var _ := cs.style.gridRow.SetSpan(span); cs
    case GridRowEnd(line) => var _ := cs.style.gridRow.SetEnd(line); cs
    case GridColumn(placement) => F.WithGridColumn(cs, placement)
    case GridColumnStart(line) => var _ := cs.style.gridColumn.SetStart(line); cs
    case GridColumnSpan(span) => var _ := cs.style.gridColumn.SetSpan(span); cs
    case GridColumnEnd(line) => var _ := cs.style.gridColumn.SetEnd(line); cs
    case LineBreak(lineBreak) => F.WithLineBreak(cs, Some(lineBreak))
  }

  /**
   * The discrepancy, for every start line that differs from the current one: as written,
   * `grid-row-start` leaves the start line as it was, where the intended `Apply` stores it.
   */
  lemma GridRowStartDiscardedAsWritten(v: I16, cs: ComputedStyle, ev: Evaluator)
    requires cs.style.gridRow.start != Some(v)
    ensures ApplyAsWritten(GridRowStart(v), cs, ev).style.gridRow.start != Some(v)
    ensures Apply(GridRowStart(v), cs, ev).style.gridRow.start == Some(v)
  {
  }

  /** Every other attribute is applied identically by the written and the intended code. */
  lemma AsWrittenAgreesOffGridLines(attr: StyleAttr, cs: ComputedStyle, ev: Evaluator)
    requires !IsGridLineSetter(attr)
    ensures ApplyAsWritten(attr, cs, ev) == Apply(attr, cs, ev)
  {
  }

  /** As written, each of the six grid-line setters leaves the whole computed style as it was. */
  lemma GridLineSetterIsNoOpAsWritten(attr: StyleAttr, cs: ComputedStyle, ev: Evaluator)
    requires IsGridLineSetter(attr)
    ensures ApplyAsWritten(attr, cs, ev) == cs
  {
  }
}
