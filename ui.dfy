/**
 * The layout-engine value types that style attributes carry and that a computed style holds
 * (Bevy's `Val`, `UiRect`, the alignment and flex enumerations, `GridPlacement`), plus the
 * asset handles and asset paths of the loader.
 */
module Ui {
  import opened Wrappers

  /** The text of a number (`1`, `-2.5`, `.5`); floating-point values are kept as their numeral. */
  type Numeral = string

  /** A length: `auto`, or a number in one of six units. */
  datatype Val = Auto | Px(n: Numeral) | Percent(n: Numeral) | Vw(n: Numeral) | Vh(n: Numeral)
               | VMin(n: Numeral) | VMax(n: Numeral)

  /** Four lengths, one per side (Bevy's `UiRect::new(left, right, top, bottom)`). */
  datatype UiRect = UiRect(left: Val, right: Val, top: Val, bottom: Val)

  datatype PositionType = Relative | Absolute

  datatype OverflowAxis = Visible | Clip

  /** Per-axis overflow behaviour. */
  datatype Overflow = Overflow(x: OverflowAxis, y: OverflowAxis)

  datatype Direction = Inherit | LeftToRight | RightToLeft

  /** Bevy's `Display`; its third value, written `None` there, is `Hidden` here. */
  datatype Display = Flex | Grid | Hidden

  datatype AlignItems = Default | Start | End | FlexStart | FlexEnd | Center | Baseline | Stretch

  datatype JustifyItems = Default | Start | End | Center | Baseline | Stretch

  datatype AlignSelf = Auto | Start | End | FlexStart | FlexEnd | Center | Baseline | Stretch

  datatype JustifySelf = Auto | Start | End | Center | Baseline | Stretch

  datatype AlignContent = Default | Start | End | FlexStart | FlexEnd | Center | Stretch
                        | SpaceBetween | SpaceAround | SpaceEvenly

  datatype JustifyContent = Default | Start | End | FlexStart | FlexEnd | Center
                          | SpaceBetween | SpaceAround | SpaceEvenly

  datatype FlexDirection = Row | Column | RowReverse | ColumnReverse

  datatype FlexWrap = NoWrap | Wrap | WrapReverse

  datatype GridAutoFlow = Row | Column | RowDense | ColumnDense

  /** Text line breaking (Bevy's `BreakLineOn`). */
  datatype BreakLineOn = WordBoundary | AnyCharacter | NoWrap

  type I16 = x: int | -0x8000 <= x < 0x8000

  type U16 = x: int | 0 <= x < 0x1_0000

  type I32 = x: int | -0x8000_0000 <= x < 0x8000_0000

  /** Where an item sits on one grid axis: start line, span and end line, each optional. */
  datatype GridPlacement = GridPlacement(start: Option<I16>, span: Option<U16>, end: Option<I16>)
  {
    function SetStart(v: I16): (g: GridPlacement)
      ensures g.start == Some(v) && g.span == span && g.end == end
    {
      this.(start := Some(v))
    }

    function SetSpan(v: U16): (g: GridPlacement)
      ensures g.start == start && g.span == Some(v) && g.end == end
    {
      this.(span := Some(v))
    }

    function SetEnd(v: I16): (g: GridPlacement)
      ensures g.start == start && g.span == span && g.end == Some(v)
    {
      this.(end := Some(v))
    }
  }

  /** `GridPlacement::default()`: automatic start and end, span of one track. */
  const DefaultGridPlacement := GridPlacement(None, Some(1), None)

  /** A colour; the colour model itself (RGBA/HSLA floats) is not part of this model. */
  datatype Color = Color(code: nat)

  /** A handle the asset subsystem hands out for a load request. */
  datatype Handle = Handle(id: nat)

  /** A path to an asset file, with an optional label naming a sub-asset of that file. */
  datatype AssetPath = AssetPath(path: string, assetLabel: Option<string>)
}
