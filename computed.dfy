/**
 * The computed style: the flat record one merge produces, one field per stylable property,
 * every value resolved. `style` holds the layout properties the layout engine reads.
 */
module Computed {
  import opened Wrappers
  import opened Ui

  /** The layout properties of a node that style attributes can set. */
  datatype Style = Style(
    display: Display,
    positionType: PositionType,
    overflow: Overflow,
    direction: Direction,
    left: Val,
    right: Val,
    top: Val,
    bottom: Val,
    width: Val,
    height: Val,
    minWidth: Val,
    minHeight: Val,
    maxWidth: Val,
    maxHeight: Val,
    alignItems: AlignItems,
    justifyItems: JustifyItems,
    alignSelf: AlignSelf,
    justifySelf: JustifySelf,
    alignContent: AlignContent,
    justifyContent: JustifyContent,
    margin: UiRect,
    padding: UiRect,
    border: UiRect,
    flexDirection: FlexDirection,
    flexWrap: FlexWrap,
    flexGrow: real,
    flexShrink: real,
    flexBasis: Val,
    rowGap: Val,
    columnGap: Val,
    gridAutoFlow: GridAutoFlow,
    gridRow: GridPlacement,
    gridColumn: GridPlacement)

  datatype ComputedStyle = ComputedStyle(
    style: Style,
    backgroundColor: Option<Color>,
    borderColor: Option<Color>,
    color: Option<Color>,
    zIndex: Option<I32>,
    image: Option<Handle>,
    lineBreak: Option<BreakLineOn>)

  const ZeroRect := UiRect(Px("0"), Px("0"), Px("0"), Px("0"))

  /** `ComputedStyle::default()`: no colours, image, z-index or line-break mode, and the layout engine's default style. */
  const DefaultComputedStyle := ComputedStyle(
    Style(
      Flex, Relative, Overflow(Visible, Visible), Inherit,
      Val.Auto, Val.Auto, Val.Auto, Val.Auto,
      Val.Auto, Val.Auto, Val.Auto, Val.Auto, Val.Auto, Val.Auto,
      AlignItems.Default, JustifyItems.Default, AlignSelf.Auto, JustifySelf.Auto,
      AlignContent.Default, JustifyContent.Default,
      ZeroRect, ZeroRect, ZeroRect,
      FlexDirection.Row, FlexWrap.NoWrap, 0.0, 1.0, Val.Auto,
      Px("0"), Px("0"),
      GridAutoFlow.Row, DefaultGridPlacement, DefaultGridPlacement),
    None, None, None, None, None, None)
}
