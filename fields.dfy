/**
 * The individual fields of a computed style, so that the effect of an attribute can be stated
 * field by field: `Get(cs, f)` reads field `f` of `cs`, whatever its type, as a `Value`.
 */
module Fields {
  import opened Wrappers
  import opened Ui
  import opened Computed

  /** One leaf field of `ComputedStyle` (a rect contributes four, an overflow or a grid placement several). */
  datatype Field =
    | BackgroundColor | BorderColor | TextColor | ZIndex | Image | LineBreak
    | Display | PositionType | OverflowX | OverflowY | Direction
    | Left | Right | Top | Bottom
    | Width | Height | MinWidth | MinHeight | MaxWidth | MaxHeight
    | AlignItems | JustifyItems | AlignSelf | JustifySelf | AlignContent | JustifyContent
    | MarginLeft | MarginRight | MarginTop | MarginBottom
    | PaddingLeft | PaddingRight | PaddingTop | PaddingBottom
    | BorderLeft | BorderRight | BorderTop | BorderBottom
    | FlexDirection | FlexWrap | FlexGrow | FlexShrink | FlexBasis
    | RowGap | ColumnGap
    | GridAutoFlow
    | GridRowStart | GridRowSpan | GridRowEnd
    | GridColumnStart | GridColumnSpan | GridColumnEnd

  /** The value of one field, tagged by the field's type. */
  datatype Value =
    | ColorValue(color: Option<Color>)
    | ZIndexValue(z: Option<I32>)
    | ImageValue(image: Option<Handle>)
    | LineBreakValue(lineBreak: Option<BreakLineOn>)
    | DisplayValue(display: Ui.Display)
    | PositionValue(position: Ui.PositionType)
    | OverflowValue(axis: OverflowAxis)
    | DirectionValue(direction: Ui.Direction)
    | LengthValue(length: Val)
    | AlignItemsValue(alignItems: Ui.AlignItems)
    | JustifyItemsValue(justifyItems: Ui.JustifyItems)
    | AlignSelfValue(alignSelf: Ui.AlignSelf)
    | JustifySelfValue(justifySelf: Ui.JustifySelf)
    | AlignContentValue(alignContent: Ui.AlignContent)
    | JustifyContentValue(justifyContent: Ui.JustifyContent)
    | FlexDirectionValue(flexDirection: Ui.FlexDirection)
    | FlexWrapValue(flexWrap: Ui.FlexWrap)
    | ScalarValue(scalar: real)
    | GridAutoFlowValue(gridAutoFlow: Ui.GridAutoFlow)
    | GridLineValue(line: Option<I16>)
    | GridSpanValue(span: Option<U16>)

  /** Field `f` of `cs`. */
  function Get(cs: ComputedStyle, f: Field): Value {
    var s := cs.style;
    match f
    case BackgroundColor => ColorValue(cs.backgroundColor)
    case BorderColor => ColorValue(cs.borderColor)
    case TextColor => ColorValue(cs.color)
    case ZIndex => ZIndexValue(cs.zIndex)
    case Image => ImageValue(cs.image)
    case LineBreak => LineBreakValue(cs.lineBreak)
    case Display => DisplayValue(s.display)
    case PositionType => PositionValue(s.positionType)
    case OverflowX => OverflowValue(s.overflow.x)
    case OverflowY => OverflowValue(s.overflow.y)
    case Direction => DirectionValue(s.direction)
    case Left => LengthValue(s.left)
    case Right => LengthValue(s.right)
    case Top => LengthValue(s.top)
    case Bottom => LengthValue(s.bottom)
    case Width => LengthValue(s.width)
    case Height => LengthValue(s.height)
    case MinWidth => LengthValue(s.minWidth)
    case MinHeight => LengthValue(s.minHeight)
    case MaxWidth => LengthValue(s.maxWidth)
    case MaxHeight => LengthValue(s.maxHeight)
    case AlignItems => AlignItemsValue(s.alignItems)
    case JustifyItems => JustifyItemsValue(s.justifyItems)
    case AlignSelf => AlignSelfValue(s.alignSelf)
    case JustifySelf => JustifySelfValue(s.justifySelf)
    case AlignContent => AlignContentValue(s.alignContent)
    case JustifyContent => JustifyContentValue(s.justifyContent)
    case MarginLeft => LengthValue(s.margin.left)
    case MarginRight => LengthValue(s.margin.right)
    case MarginTop => LengthValue(s.margin.top)
    case MarginBottom => LengthValue(s.margin.bottom)
    case PaddingLeft => LengthValue(s.padding.left)
    case PaddingRight => LengthValue(s.padding.right)
    case PaddingTop => LengthValue(s.padding.top)
    case PaddingBottom => LengthValue(s.padding.bottom)
    case BorderLeft => LengthValue(s.border.left)
    case BorderRight => LengthValue(s.border.right)
    case BorderTop => LengthValue(s.border.top)
    case BorderBottom => LengthValue(s.border.bottom)
    case FlexDirection => FlexDirectionValue(s.flexDirection)
    case FlexWrap => FlexWrapValue(s.flexWrap)
    case FlexGrow => ScalarValue(s.flexGrow)
    case FlexShrink => ScalarValue(s.flexShrink)
    case FlexBasis => LengthValue(s.flexBasis)
    case RowGap => LengthValue(s.rowGap)
    case ColumnGap => LengthValue(s.columnGap)
    case GridAutoFlow => GridAutoFlowValue(s.gridAutoFlow)
    case GridRowStart => GridLineValue(s.gridRow.start)
    case GridRowSpan => GridSpanValue(s.gridRow.span)
    case GridRowEnd => GridLineValue(s.gridRow.end)
    case GridColumnStart => GridLineValue(s.gridColumn.start)
    case GridColumnSpan => GridSpanValue(s.gridColumn.span)
    case GridColumnEnd => GridLineValue(s.gridColumn.end)
  }

  // Single-field updates of a computed style, as the style attributes perform them.

  function WithBackgroundColor(cs: ComputedStyle, v: Option<Color>): ComputedStyle {
    cs.(backgroundColor := v)
  }

  function WithBorderColor(cs: ComputedStyle, v: Option<Color>): ComputedStyle {
    cs.(borderColor := v)
  }

  function WithTextColor(cs: ComputedStyle, v: Option<Color>): ComputedStyle {
    cs.(color := v)
  }

  function WithZIndex(cs: ComputedStyle, v: Option<I32>): ComputedStyle {
    cs.(zIndex := v)
  }

  function WithImage(cs: ComputedStyle, v: Option<Handle>): ComputedStyle {
    cs.(image := v)
  }

  function WithLineBreak(cs: ComputedStyle, v: Option<BreakLineOn>): ComputedStyle {
    cs.(lineBreak := v)
  }

  function WithDisplay(cs: ComputedStyle, v: Ui.Display): ComputedStyle {
    cs.(style := cs.style.(display := v))
  }

  function WithPositionType(cs: ComputedStyle, v: Ui.PositionType): ComputedStyle {
    cs.(style := cs.style.(positionType := v))
  }

  function WithOverflow(cs: ComputedStyle, v: Ui.Overflow): ComputedStyle {
    cs.(style := cs.style.(overflow := v))
  }

  function WithDirection(cs: ComputedStyle, v: Ui.Direction): ComputedStyle {
    cs.(style := cs.style.(direction := v))
  }

  function WithLeft(cs: ComputedStyle, v: Val): ComputedStyle {
    cs.(style := cs.style.(left := v))
  }

  function WithRight(cs: ComputedStyle, v: Val): ComputedStyle {
    cs.(style := cs.style.(right := v))
  }

  function WithTop(cs: ComputedStyle, v: Val): ComputedStyle {
    cs.(style := cs.style.(top := v))
  }

  function WithBottom(cs: ComputedStyle, v: Val): ComputedStyle {
    cs.(style := cs.style.(bottom := v))
  }

  function WithWidth(cs: ComputedStyle, v: Val): ComputedStyle {
    cs.(style := cs.style.(width := v))
  }

  function WithHeight(cs: ComputedStyle, v: Val): ComputedStyle {
    cs.(style := cs.style.(height := v))
  }

  function WithMinWidth(cs: ComputedStyle, v: Val): ComputedStyle {
    cs.(style := cs.style.(minWidth := v))
  }

  function WithMinHeight(cs: ComputedStyle, v: Val): ComputedStyle {
    cs.(style := cs.style.(minHeight := v))
  }

  function WithMaxWidth(cs: ComputedStyle, v: Val): ComputedStyle {
    cs.(style := cs.style.(maxWidth := v))
  }

  function WithMaxHeight(cs: ComputedStyle, v: Val): ComputedStyle {
    cs.(style := cs.style.(maxHeight := v))
  }

  function WithAlignItems(cs: ComputedStyle, v: Ui.AlignItems): ComputedStyle {
    cs.(style := cs.style.(alignItems := v))
  }

  function WithJustifyItems(cs: ComputedStyle, v: Ui.JustifyItems): ComputedStyle {
    cs.(style := cs.style.(justifyItems := v))
  }

  function WithAlignSelf(cs: ComputedStyle, v: Ui.AlignSelf): ComputedStyle {
    cs.(style := cs.style.(alignSelf := v))
  }

  function WithJustifySelf(cs: ComputedStyle, v: Ui.JustifySelf): ComputedStyle {
    cs.(style := cs.style.(justifySelf := v))
  }

  function WithAlignContent(cs: ComputedStyle, v: Ui.AlignContent): ComputedStyle {
    cs.(style := cs.style.(alignContent := v))
  }

  function WithJustifyContent(cs: ComputedStyle, v: Ui.JustifyContent): ComputedStyle {
    cs.(style := cs.style.(justifyContent := v))
  }

  function WithMargin(cs: ComputedStyle, v: UiRect): ComputedStyle {
    cs.(style := cs.style.(margin := v))
  }

  function WithPadding(cs: ComputedStyle, v: UiRect): ComputedStyle {
    cs.(style := cs.style.(padding := v))
  }

  function WithBorder(cs: ComputedStyle, v: UiRect): ComputedStyle {
    cs.(style := cs.style.(border := v))
  }

  function WithFlexDirection(cs: ComputedStyle, v: Ui.FlexDirection): ComputedStyle {
    cs.(style := cs.style.(flexDirection := v))
  }

  function WithFlexWrap(cs: ComputedStyle, v: Ui.FlexWrap): ComputedStyle {
    cs.(style := cs.style.(flexWrap := v))
  }

  function WithFlexGrow(cs: ComputedStyle, v: real): ComputedStyle {
    cs.(style := cs.style.(flexGrow := v))
  }

  function WithFlexShrink(cs: ComputedStyle, v: real): ComputedStyle {
    cs.(style := cs.style.(flexShrink := v))
  }

  function WithFlexBasis(cs: ComputedStyle, v: Val): ComputedStyle {
    cs.(style := cs.style.(flexBasis := v))
  }

  function WithRowGap(cs: ComputedStyle, v: Val): ComputedStyle {
    cs.(style := cs.style.(rowGap := v))
  }

  function WithColumnGap(cs: ComputedStyle, v: Val): ComputedStyle {
    cs.(style := cs.style.(columnGap := v))
  }

  function WithGridAutoFlow(cs: ComputedStyle, v: Ui.GridAutoFlow): ComputedStyle {
    cs.(style := cs.style.(gridAutoFlow := v))
  }

  function WithGridRow(cs: ComputedStyle, v: GridPlacement): ComputedStyle {
    cs.(style := cs.style.(gridRow := v))
  }

  function WithGridColumn(cs: ComputedStyle, v: GridPlacement): ComputedStyle {
    cs.(style := cs.style.(gridColumn := v))
  }

  function WithOverflowX(cs: ComputedStyle, v: OverflowAxis): ComputedStyle {
    cs.(style := cs.style.(overflow := cs.style.overflow.(x := v)))
  }

  function WithOverflowY(cs: ComputedStyle, v: OverflowAxis): ComputedStyle {
    cs.(style := cs.style.(overflow := cs.style.overflow.(y := v)))
  }

  function WithMarginLeft(cs: ComputedStyle, v: Val): ComputedStyle {
    cs.(style := cs.style.(margin := cs.style.margin.(left := v)))
  }

  function WithMarginRight(cs: ComputedStyle, v: Val): ComputedStyle {
    cs.(style := cs.style.(margin := cs.style.margin.(right := v)))
  }

  function WithMarginTop(cs: ComputedStyle, v: Val): ComputedStyle {
    cs.(style := cs.style.(margin := cs.style.margin.(top := v)))
  }

  function WithMarginBottom(cs: ComputedStyle, v: Val): ComputedStyle {
    cs.(style := cs.style.(margin := cs.style.margin.(bottom := v)))
  }

  function WithPaddingLeft(cs: ComputedStyle, v: Val): ComputedStyle {
    cs.(style := cs.style.(padding := cs.style.padding.(left := v)))
  }

  function WithPaddingRight(cs: ComputedStyle, v: Val): ComputedStyle {
    cs.(style := cs.style.(padding := cs.style.padding.(right := v)))
  }

  function WithPaddingTop(cs: ComputedStyle, v: Val): ComputedStyle {
    cs.(style := cs.style.(padding := cs.style.padding.(top := v)))
  }

  function WithPaddingBottom(cs: ComputedStyle, v: Val): ComputedStyle {
    cs.(style := cs.style.(padding := cs.style.padding.(bottom := v)))
  }

  function WithBorderLeft(cs: ComputedStyle, v: Val): ComputedStyle {
    cs.(style := cs.style.(border := cs.style.border.(left := v)))
  }

  function WithBorderRight(cs: ComputedStyle, v: Val): ComputedStyle {
    cs.(style := cs.style.(border := cs.style.border.(right := v)))
  }

  function WithBorderTop(cs: ComputedStyle, v: Val): ComputedStyle {
    cs.(style := cs.style.(border := cs.style.border.(top := v)))
  }

  function WithBorderBottom(cs: ComputedStyle, v: Val): ComputedStyle {
    cs.(style := cs.style.(border := cs.style.border.(bottom := v)))
  }

  function WithGaps(cs: ComputedStyle, v: Val): ComputedStyle {
    cs.(style := cs.style.(rowGap := v, columnGap := v))
  }

  function WithGridRowStart(cs: ComputedStyle, v: I16): ComputedStyle {
    cs.(style := cs.style.(gridRow := cs.style.gridRow.SetStart(v)))
  }

  function WithGridRowSpan(cs: ComputedStyle, v: U16): ComputedStyle {
    cs.(style := cs.style.(gridRow := cs.style.gridRow.SetSpan(v)))
  }

  function WithGridRowEnd(cs: ComputedStyle, v: I16): ComputedStyle {
    cs.(style := cs.style.(gridRow := cs.style.gridRow.SetEnd(v)))
  }

  function WithGridColumnStart(cs: ComputedStyle, v: I16): ComputedStyle {
    cs.(style := cs.style.(gridColumn := cs.style.gridColumn.SetStart(v)))
  }

  function WithGridColumnSpan(cs: ComputedStyle, v: U16): ComputedStyle {
    cs.(style := cs.style.(gridColumn := cs.style.gridColumn.SetSpan(v)))
  }

  function WithGridColumnEnd(cs: ComputedStyle, v: I16): ComputedStyle {
    cs.(style := cs.style.(gridColumn := cs.style.gridColumn.SetEnd(v)))
  }

  // Reading a field after one update: every field the update does not name reads as before.
  // One lemma per update keeps each proof to a single case split over `Field`.

  lemma SetBackgroundColorKeepsOthers(cs: ComputedStyle, v: Option<Color>, f: Field)
    requires f != Field.BackgroundColor
    ensures Get(WithBackgroundColor(cs, v), f) == Get(cs, f)
  {
  }

  lemma SetBorderColorKeepsOthers(cs: ComputedStyle, v: Option<Color>, f: Field)
    requires f != Field.BorderColor
    ensures Get(WithBorderColor(cs, v), f) == Get(cs, f)
  {
  }

  lemma SetTextColorKeepsOthers(cs: ComputedStyle, v: Option<Color>, f: Field)
    requires f != Field.TextColor
    ensures Get(WithTextColor(cs, v), f) == Get(cs, f)
  {
  }

  lemma SetZIndexKeepsOthers(cs: ComputedStyle, v: Option<I32>, f: Field)
    requires f != Field.ZIndex
    ensures Get(WithZIndex(cs, v), f) == Get(cs, f)
  {
  }

  lemma SetImageKeepsOthers(cs: ComputedStyle, v: Option<Handle>, f: Field)
    requires f != Field.Image
    ensures Get(WithImage(cs, v), f) == Get(cs, f)
  {
  }

  lemma SetLineBreakKeepsOthers(cs: ComputedStyle, v: Option<BreakLineOn>, f: Field)
    requires f != Field.LineBreak
    ensures Get(WithLineBreak(cs, v), f) == Get(cs, f)
  {
  }

  lemma SetDisplayKeepsOthers(cs: ComputedStyle, v: Ui.Display, f: Field)
    requires f != Field.Display
    ensures Get(WithDisplay(cs, v), f) == Get(cs, f)
  {
  }

  lemma SetPositionTypeKeepsOthers(cs: ComputedStyle, v: Ui.PositionType, f: Field)
    requires f != Field.PositionType
    ensures Get(WithPositionType(cs, v), f) == Get(cs, f)
  {
  }

  lemma SetOverflowKeepsOthers(cs: ComputedStyle, v: Ui.Overflow, f: Field)
    requires f != Field.OverflowX && f != Field.OverflowY
    ensures Get(WithOverflow(cs, v), f) == Get(cs, f)
  {
  }

  lemma SetDirectionKeepsOthers(cs: ComputedStyle, v: Ui.Direction, f: Field)
    requires f != Field.Direction
    ensures Get(WithDirection(cs, v), f) == Get(cs, f)
  {
  }

  lemma SetLeftKeepsOthers(cs: ComputedStyle, v: Val, f: Field)
    requires f != Field.Left
    ensures Get(WithLeft(cs, v), f) == Get(cs, f)
  {
  }

  lemma SetRightKeepsOthers(cs: ComputedStyle, v: Val, f: Field)
    requires f != Field.Right
    ensures Get(WithRight(cs, v), f) == Get(cs, f)
  {
  }

  lemma SetTopKeepsOthers(cs: ComputedStyle, v: Val, f: Field)
    requires f != Field.Top
    ensures Get(WithTop(cs, v), f) == Get(cs, f)
  {
  }

  lemma SetBottomKeepsOthers(cs: ComputedStyle, v: Val, f: Field)
    requires f != Field.Bottom
    ensures Get(WithBottom(cs, v), f) == Get(cs, f)
  {
  }

  lemma SetWidthKeepsOthers(cs: ComputedStyle, v: Val, f: Field)
    requires f != Field.Width
    ensures Get(WithWidth(cs, v), f) == Get(cs, f)
  {
  }

  lemma SetHeightKeepsOthers(cs: ComputedStyle, v: Val, f: Field)
    requires f != Field.Height
    ensures Get(WithHeight(cs, v), f) == Get(cs, f)
  {
  }

  lemma SetMinWidthKeepsOthers(cs: ComputedStyle, v: Val, f: Field)
    requires f != Field.MinWidth
    ensures Get(WithMinWidth(cs, v), f) == Get(cs, f)
  {
  }

  lemma SetMinHeightKeepsOthers(cs: ComputedStyle, v: Val, f: Field)
    requires f != Field.MinHeight
    ensures Get(WithMinHeight(cs, v), f) == Get(cs, f)
  {
  }

  lemma SetMaxWidthKeepsOthers(cs: ComputedStyle, v: Val, f: Field)
    requires f != Field.MaxWidth
    ensures Get(WithMaxWidth(cs, v), f) == Get(cs, f)
  {
  }

  lemma SetMaxHeightKeepsOthers(cs: ComputedStyle, v: Val, f: Field)
    requires f != Field.MaxHeight
    ensures Get(WithMaxHeight(cs, v), f) == Get(cs, f)
  {
  }

  lemma SetAlignItemsKeepsOthers(cs: ComputedStyle, v: Ui.AlignItems, f: Field)
    requires f != Field.AlignItems
    ensures Get(WithAlignItems(cs, v), f) == Get(cs, f)
  {
  }

  lemma SetJustifyItemsKeepsOthers(cs: ComputedStyle, v: Ui.JustifyItems, f: Field)
    requires f != Field.JustifyItems
    ensures Get(WithJustifyItems(cs, v), f) == Get(cs, f)
  {
  }

  lemma SetAlignSelfKeepsOthers(cs: ComputedStyle, v: Ui.AlignSelf, f: Field)
    requires f != Field.AlignSelf
    ensures Get(WithAlignSelf(cs, v), f) == Get(cs, f)
  {
  }

  lemma SetJustifySelfKeepsOthers(cs: ComputedStyle, v: Ui.JustifySelf, f: Field)
    requires f != Field.JustifySelf
    ensures Get(WithJustifySelf(cs, v), f) == Get(cs, f)
  {
  }

  lemma SetAlignContentKeepsOthers(cs: ComputedStyle, v: Ui.AlignContent, f: Field)
    requires f != Field.AlignContent
    ensures Get(WithAlignContent(cs, v), f) == Get(cs, f)
  {
  }

  lemma SetJustifyContentKeepsOthers(cs: ComputedStyle, v: Ui.JustifyContent, f: Field)
    requires f != Field.JustifyContent
    ensures Get(WithJustifyContent(cs, v), f) == Get(cs, f)
  {
  }

  lemma SetMarginKeepsOthers(cs: ComputedStyle, v: UiRect, f: Field)
    requires f != Field.MarginLeft && f != Field.MarginRight && f != Field.MarginTop && f != Field.MarginBottom
    ensures Get(WithMargin(cs, v), f) == Get(cs, f)
  {
  }

  lemma SetPaddingKeepsOthers(cs: ComputedStyle, v: UiRect, f: Field)
    requires f != Field.PaddingLeft && f != Field.PaddingRight && f != Field.PaddingTop && f != Field.PaddingBottom
    ensures Get(WithPadding(cs, v), f) == Get(cs, f)
  {
  }

  lemma SetBorderKeepsOthers(cs: ComputedStyle, v: UiRect, f: Field)
    requires f != Field.BorderLeft && f != Field.BorderRight && f != Field.BorderTop && f != Field.BorderBottom
    ensures Get(WithBorder(cs, v), f) == Get(cs, f)
  {
  }

  lemma SetFlexDirectionKeepsOthers(cs: ComputedStyle, v: Ui.FlexDirection, f: Field)
    requires f != Field.FlexDirection
    ensures Get(WithFlexDirection(cs, v), f) == Get(cs, f)
  {
  }

  lemma SetFlexWrapKeepsOthers(cs: ComputedStyle, v: Ui.FlexWrap, f: Field)
    requires f != Field.FlexWrap
    ensures Get(WithFlexWrap(cs, v), f) == Get(cs, f)
  {
  }

  lemma SetFlexGrowKeepsOthers(cs: ComputedStyle, v: real, f: Field)
    requires f != Field.FlexGrow
    ensures Get(WithFlexGrow(cs, v), f) == Get(cs, f)
  {
  }

  lemma SetFlexShrinkKeepsOthers(cs: ComputedStyle, v: real, f: Field)
    requires f != Field.FlexShrink
    ensures Get(WithFlexShrink(cs, v), f) == Get(cs, f)
  {
  }

  lemma SetFlexBasisKeepsOthers(cs: ComputedStyle, v: Val, f: Field)
    requires f != Field.FlexBasis
    ensures Get(WithFlexBasis(cs, v), f) == Get(cs, f)
  {
  }

  lemma SetRowGapKeepsOthers(cs: ComputedStyle, v: Val, f: Field)
    requires f != Field.RowGap
    ensures Get(WithRowGap(cs, v), f) == Get(cs, f)
  {
  }

  lemma SetColumnGapKeepsOthers(cs: ComputedStyle, v: Val, f: Field)
    requires f != Field.ColumnGap
    ensures Get(WithColumnGap(cs, v), f) == Get(cs, f)
  {
  }

  lemma SetGridAutoFlowKeepsOthers(cs: ComputedStyle, v: Ui.GridAutoFlow, f: Field)
    requires f != Field.GridAutoFlow
    ensures Get(WithGridAutoFlow(cs, v), f) == Get(cs, f)
  {
  }

  lemma SetGridRowKeepsOthers(cs: ComputedStyle, v: GridPlacement, f: Field)
    requires f != Field.GridRowStart && f != Field.GridRowSpan && f != Field.GridRowEnd
    ensures Get(WithGridRow(cs, v), f) == Get(cs, f)
  {
  }

  lemma SetGridColumnKeepsOthers(cs: ComputedStyle, v: GridPlacement, f: Field)
    requires f != Field.GridColumnStart && f != Field.GridColumnSpan && f != Field.GridColumnEnd
    ensures Get(WithGridColumn(cs, v), f) == Get(cs, f)
  {
  }

  lemma SetOverflowXKeepsOthers(cs: ComputedStyle, v: OverflowAxis, f: Field)
    requires f != Field.OverflowX
    ensures Get(WithOverflowX(cs, v), f) == Get(cs, f)
  {
  }

  lemma SetOverflowYKeepsOthers(cs: ComputedStyle, v: OverflowAxis, f: Field)
    requires f != Field.OverflowY
    ensures Get(WithOverflowY(cs, v), f) == Get(cs, f)
  {
  }

  lemma SetMarginLeftKeepsOthers(cs: ComputedStyle, v: Val, f: Field)
    requires f != Field.MarginLeft
    ensures Get(WithMarginLeft(cs, v), f) == Get(cs, f)
  {
  }

  lemma SetMarginRightKeepsOthers(cs: ComputedStyle, v: Val, f: Field)
    requires f != Field.MarginRight
    ensures Get(WithMarginRight(cs, v), f) == Get(cs, f)
  {
  }

  lemma SetMarginTopKeepsOthers(cs: ComputedStyle, v: Val, f: Field)
    requires f != Field.MarginTop
    ensures Get(WithMarginTop(cs, v), f) == Get(cs, f)
  {
  }

  lemma SetMarginBottomKeepsOthers(cs: ComputedStyle, v: Val, f: Field)
    requires f != Field.MarginBottom
    ensures Get(WithMarginBottom(cs, v), f) == Get(cs, f)
  {
  }

  lemma SetPaddingLeftKeepsOthers(cs: ComputedStyle, v: Val, f: Field)
    requires f != Field.PaddingLeft
    ensures Get(WithPaddingLeft(cs, v), f) == Get(cs, f)
  {
  }

  lemma SetPaddingRightKeepsOthers(cs: ComputedStyle, v: Val, f: Field)
    requires f != Field.PaddingRight
    ensures Get(WithPaddingRight(cs, v), f) == Get(cs, f)
  {
  }

  lemma SetPaddingTopKeepsOthers(cs: ComputedStyle, v: Val, f: Field)
    requires f != Field.PaddingTop
    ensures Get(WithPaddingTop(cs, v), f) == Get(cs, f)
  {
  }

  lemma SetPaddingBottomKeepsOthers(cs: ComputedStyle, v: Val, f: Field)
    requires f != Field.PaddingBottom
    ensures Get(WithPaddingBottom(cs, v), f) == Get(cs, f)
  {
  }

  lemma SetBorderLeftKeepsOthers(cs: ComputedStyle, v: Val, f: Field)
    requires f != Field.BorderLeft
    ensures Get(WithBorderLeft(cs, v), f) == Get(cs, f)
  {
  }

  lemma SetBorderRightKeepsOthers(cs: ComputedStyle, v: Val, f: Field)
    requires f != Field.BorderRight
    ensures Get(WithBorderRight(cs, v), f) == Get(cs, f)
  {
  }

  lemma SetBorderTopKeepsOthers(cs: ComputedStyle, v: Val, f: Field)
    requires f != Field.BorderTop
    ensures Get(WithBorderTop(cs, v), f) == Get(cs, f)
  {
  }

  lemma SetBorderBottomKeepsOthers(cs: ComputedStyle, v: Val, f: Field)
    requires f != Field.BorderBottom
    ensures Get(WithBorderBottom(cs, v), f) == Get(cs, f)
  {
  }

  lemma SetGapsKeepsOthers(cs: ComputedStyle, v: Val, f: Field)
    requires f != Field.RowGap && f != Field.ColumnGap
    ensures Get(WithGaps(cs, v), f) == Get(cs, f)
  {
  }

  lemma SetGridRowStartKeepsOthers(cs: ComputedStyle, v: I16, f: Field)
    requires f != Field.GridRowStart
    ensures Get(WithGridRowStart(cs, v), f) == Get(cs, f)
  {
  }

  lemma SetGridRowSpanKeepsOthers(cs: ComputedStyle, v: U16, f: Field)
    requires f != Field.GridRowSpan
    ensures Get(WithGridRowSpan(cs, v), f) == Get(cs, f)
  {
  }

  lemma SetGridRowEndKeepsOthers(cs: ComputedStyle, v: I16, f: Field)
    requires f != Field.GridRowEnd
    ensures Get(WithGridRowEnd(cs, v), f) == Get(cs, f)
  {
  }

  lemma SetGridColumnStartKeepsOthers(cs: ComputedStyle, v: I16, f: Field)
    requires f != Field.GridColumnStart
    ensures Get(WithGridColumnStart(cs, v), f) == Get(cs, f)
  {
  }

  lemma SetGridColumnSpanKeepsOthers(cs: ComputedStyle, v: U16, f: Field)
    requires f != Field.GridColumnSpan
    ensures Get(WithGridColumnSpan(cs, v), f) == Get(cs, f)
  {
  }

  lemma SetGridColumnEndKeepsOthers(cs: ComputedStyle, v: I16, f: Field)
    requires f != Field.GridColumnEnd
    ensures Get(WithGridColumnEnd(cs, v), f) == Get(cs, f)
  {
  }
}
