/**
 * The keyword vocabularies of the enumeration-valued style attributes: for each enumeration,
 * the word `write_xml` writes for each value and the exact-match parse `StyleAttr::parse` applies
 * to an attribute value. A word outside the vocabulary is an unknown attribute value.
 */
module Keywords {
  import opened Wrappers
  import opened Ui
  import opened StyleValues

  /** The word written for each `PositionType`. */
  function PositionText(v: PositionType): string {
    match v
    case Absolute => "absolute"
    case Relative => "relative"
  }

  /** The `PositionType` a word names; any other word is an unknown attribute value naming that word. */
  function ParsePosition(value: string): (r: Result<PositionType, GuiseError>)
    ensures r.Ok? ==> PositionText(r.value) == value
    ensures r.Err? ==> r.error == UnknownAttributeValue(value) && forall v :: PositionText(v) != value
  {
    match value
    case "absolute" => Ok(Ui.PositionType.Absolute)
    case "relative" => Ok(Ui.PositionType.Relative)
    case _ => Err(UnknownAttributeValue(value))
  }

  lemma PositionRoundTrip(v: PositionType)
    ensures ParsePosition(PositionText(v)) == Ok(v)
  {
  }

  /** The word written for each `OverflowAxis`. */
  function OverflowAxisText(v: OverflowAxis): string {
    match v
    case Clip => "clip"
    case Visible => "visible"
  }

  /** The `OverflowAxis` a word names; any other word is an unknown attribute value naming that word. */
  function ParseOverflowAxis(value: string): (r: Result<OverflowAxis, GuiseError>)
    ensures r.Ok? ==> OverflowAxisText(r.value) == value
    ensures r.Err? ==> r.error == UnknownAttributeValue(value) && forall v :: OverflowAxisText(v) != value
  {
    match value
    case "clip" => Ok(Ui.OverflowAxis.Clip)
    case "visible" => Ok(Ui.OverflowAxis.Visible)
    case _ => Err(UnknownAttributeValue(value))
  }

  lemma OverflowAxisRoundTrip(v: OverflowAxis)
    ensures ParseOverflowAxis(OverflowAxisText(v)) == Ok(v)
  {
  }

  /** The word written for each `Direction`. */
  function DirectionText(v: Ui.Direction): string {
    match v
    case Inherit => "inherit"
    case LeftToRight => "ltr"
    case RightToLeft => "rtl"
  }

  /** The `Direction` a word names; any other word is an unknown attribute value naming that word. */
  function ParseDirection(value: string): (r: Result<Ui.Direction, GuiseError>)
    ensures r.Ok? ==> DirectionText(r.value) == value
    ensures r.Err? ==> r.error == UnknownAttributeValue(value) && forall v :: DirectionText(v) != value
  {
    match value
    case "inherit" => Ok(Ui.Direction.Inherit)
    case "ltr" => Ok(Ui.Direction.LeftToRight)
    case "rtl" => Ok(Ui.Direction.RightToLeft)
    case _ => Err(UnknownAttributeValue(value))
  }

  lemma DirectionRoundTrip(v: Ui.Direction)
    ensures ParseDirection(DirectionText(v)) == Ok(v)
  {
  }

  /** The word written for each `AlignItems`. */
  function AlignItemsText(v: Ui.AlignItems): string {
    match v
    case Default => "default"
    case Start => "start"
    case End => "end"
    case FlexStart => "flex-start"
    case FlexEnd => "flex-end"
    case Center => "center"
    case Baseline => "baseline"
    case Stretch => "stretch"
  }

  /** The `AlignItems` a word names; any other word is an unknown attribute value naming that word. */
  function ParseAlignItems(value: string): (r: Result<Ui.AlignItems, GuiseError>)
    ensures r.Ok? ==> AlignItemsText(r.value) == value
    ensures r.Err? ==> r.error == UnknownAttributeValue(value) && forall v :: AlignItemsText(v) != value
  {
    match value
    case "default" => Ok(Ui.AlignItems.Default)
    case "start" => Ok(Ui.AlignItems.Start)
    case "end" => Ok(Ui.AlignItems.End)
    case "flex-start" => Ok(Ui.AlignItems.FlexStart)
    case "flex-end" => Ok(Ui.AlignItems.FlexEnd)
    case "center" => Ok(Ui.AlignItems.Center)
    case "baseline" => Ok(Ui.AlignItems.Baseline)
    case "stretch" => Ok(Ui.AlignItems.Stretch)
    case _ => Err(UnknownAttributeValue(value))
  }

  lemma AlignItemsRoundTrip(v: Ui.AlignItems)
    ensures ParseAlignItems(AlignItemsText(v)) == Ok(v)
  {
  }

  /** The word written for each `JustifyItems`. */
  function JustifyItemsText(v: Ui.JustifyItems): string {
    match v
    case Default => "default"
    case Start => "start"
    case End => "end"
    case Center => "center"
    case Baseline => "baseline"
    case Stretch => "stretch"
  }

  /** The `JustifyItems` a word names; any other word is an unknown attribute value naming that word. */
  function ParseJustifyItems(value: string): (r: Result<Ui.JustifyItems, GuiseError>)
    ensures r.Ok? ==> JustifyItemsText(r.value) == value
    ensures r.Err? ==> r.error == UnknownAttributeValue(value) && forall v :: JustifyItemsText(v) != value
  {
    match value
    case "default" => Ok(Ui.JustifyItems.Default)
    case "start" => Ok(Ui.JustifyItems.Start)
    case "end" => Ok(Ui.JustifyItems.End)
    case "center" => Ok(Ui.JustifyItems.Center)
    case "baseline" => Ok(Ui.JustifyItems.Baseline)
    case "stretch" => Ok(Ui.JustifyItems.Stretch)
    case _ => Err(UnknownAttributeValue(value))
  }

  lemma JustifyItemsRoundTrip(v: Ui.JustifyItems)
    ensures ParseJustifyItems(JustifyItemsText(v)) == Ok(v)
  {
  }

  /** The word written for each `AlignSelf`. */
  function AlignSelfText(v: Ui.AlignSelf): string {
    match v
    case Auto => "auto"
    case Start => "start"
    case End => "end"
    case FlexStart => "flex-start"
    case FlexEnd => "flex-end"
    case Center => "center"
    case Baseline => "baseline"
    case Stretch => "stretch"
  }

  /** The `AlignSelf` a word names; any other word is an unknown attribute value naming that word. */
  function ParseAlignSelf(value: string): (r: Result<Ui.AlignSelf, GuiseError>)
    ensures r.Ok? ==> AlignSelfText(r.value) == value
    ensures r.Err? ==> r.error == UnknownAttributeValue(value) && forall v :: AlignSelfText(v) != value
  {
    match value
    case "auto" => Ok(Ui.AlignSelf.Auto)
    case "start" => Ok(Ui.AlignSelf.Start)
    case "end" => Ok(Ui.AlignSelf.End)
    case "flex-start" => Ok(Ui.AlignSelf.FlexStart)
    case "flex-end" => Ok(Ui.AlignSelf.FlexEnd)
    case "center" => Ok(Ui.AlignSelf.Center)
    case "baseline" => Ok(Ui.AlignSelf.Baseline)
    case "stretch" => Ok(Ui.AlignSelf.Stretch)
    case _ => Err(UnknownAttributeValue(value))
  }

  lemma AlignSelfRoundTrip(v: Ui.AlignSelf)
    ensures ParseAlignSelf(AlignSelfText(v)) == Ok(v)
  {
  }

  /** The word written for each `JustifySelf`. */
  function JustifySelfText(v: Ui.JustifySelf): string {
    match v
    case Auto => "auto"
    case Start => "start"
    case End => "end"
    case Center => "center"
    case Baseline => "baseline"
    case Stretch => "stretch"
  }

  /** The `JustifySelf` a word names; any other word is an unknown attribute value naming that word. */
  function ParseJustifySelf(value: string): (r: Result<Ui.JustifySelf, GuiseError>)
    ensures r.Ok? ==> JustifySelfText(r.value) == value
    ensures r.Err? ==> r.error == UnknownAttributeValue(value) && forall v :: JustifySelfText(v) != value
  {
    match value
    case "auto" => Ok(Ui.JustifySelf.Auto)
    case "start" => Ok(Ui.JustifySelf.Start)
    case "end" => Ok(Ui.JustifySelf.End)
    case "center" => Ok(Ui.JustifySelf.Center)
    case "baseline" => Ok(Ui.JustifySelf.Baseline)
    case "stretch" => Ok(Ui.JustifySelf.Stretch)
    case _ => Err(UnknownAttributeValue(value))
  }

  lemma JustifySelfRoundTrip(v: Ui.JustifySelf)
    ensures ParseJustifySelf(JustifySelfText(v)) == Ok(v)
  {
  }

  /** The word written for each `AlignContent`. */
  function AlignContentText(v: Ui.AlignContent): string {
    match v
    case Default => "default"
    case Start => "start"
    case End => "end"
    case FlexStart => "flex-start"
    case FlexEnd => "flex-end"
    case Center => "center"
    case Stretch => "stretch"
    case SpaceBetween => "space-between"
    case SpaceAround => "space-around"
    case SpaceEvenly => "space-evenly"
  }

  /** The `AlignContent` a word names; any other word is an unknown attribute value naming that word. */
  function ParseAlignContent(value: string): (r: Result<Ui.AlignContent, GuiseError>)
    ensures r.Ok? ==> AlignContentText(r.value) == value
    ensures r.Err? ==> r.error == UnknownAttributeValue(value) && forall v :: AlignContentText(v) != value
  {
    match value
    case "default" => Ok(Ui.AlignContent.Default)
    case "start" => Ok(Ui.AlignContent.Start)
    case "end" => Ok(Ui.AlignContent.End)
    case "flex-start" => Ok(Ui.AlignContent.FlexStart)
    case "flex-end" => Ok(Ui.AlignContent.FlexEnd)
    case "center" => Ok(Ui.AlignContent.Center)
    case "stretch" => Ok(Ui.AlignContent.Stretch)
    case "space-between" => Ok(Ui.AlignContent.SpaceBetween)
    case "space-around" => Ok(Ui.AlignContent.SpaceAround)
    case "space-evenly" => Ok(Ui.AlignContent.SpaceEvenly)
    case _ => Err(UnknownAttributeValue(value))
  }

  lemma AlignContentRoundTrip(v: Ui.AlignContent)
    ensures ParseAlignContent(AlignContentText(v)) == Ok(v)
  {
  }

  /** The word written for each `JustifyContent`. */
  function JustifyContentText(v: Ui.JustifyContent): string {
    match v
    case Default => "default"
    case Start => "start"
    case End => "end"
    case FlexStart => "flex-start"
    case FlexEnd => "flex-end"
    case Center => "center"
    case SpaceBetween => "space-between"
    case SpaceAround => "space-around"
    case SpaceEvenly => "space-evenly"
  }

  /** The `JustifyContent` a word names; any other word is an unknown attribute value naming that word. */
  function ParseJustifyContent(value: string): (r: Result<Ui.JustifyContent, GuiseError>)
    ensures r.Ok? ==> JustifyContentText(r.value) == value
    ensures r.Err? ==> r.error == UnknownAttributeValue(value) && forall v :: JustifyContentText(v) != value
  {
    match value
    case "default" => Ok(Ui.JustifyContent.Default)
    case "start" => Ok(Ui.JustifyContent.Start)
    case "end" => Ok(Ui.JustifyContent.End)
    case "flex-start" => Ok(Ui.JustifyContent.FlexStart)
    case "flex-end" => Ok(Ui.JustifyContent.FlexEnd)
    case "center" => Ok(Ui.JustifyContent.Center)
    case "space-between" => Ok(Ui.JustifyContent.SpaceBetween)
    case "space-around" => Ok(Ui.JustifyContent.SpaceAround)
    case "space-evenly" => Ok(Ui.JustifyContent.SpaceEvenly)
    case _ => Err(UnknownAttributeValue(value))
  }

  lemma JustifyContentRoundTrip(v: Ui.JustifyContent)
    ensures ParseJustifyContent(JustifyContentText(v)) == Ok(v)
  {
  }

  /** The word written for each `FlexDirection`. */
  function FlexDirectionText(v: Ui.FlexDirection): string {
    match v
    case Row => "row"
    case Column => "column"
    case RowReverse => "row-reverse"
    case ColumnReverse => "column-reverse"
  }

  /** The `FlexDirection` a word names; any other word is an unknown attribute value naming that word. */
  function ParseFlexDirection(value: string): (r: Result<Ui.FlexDirection, GuiseError>)
    ensures r.Ok? ==> FlexDirectionText(r.value) == value
    ensures r.Err? ==> r.error == UnknownAttributeValue(value) && forall v :: FlexDirectionText(v) != value
  {
    match value
    case "row" => Ok(Ui.FlexDirection.Row)
    case "column" => Ok(Ui.FlexDirection.Column)
    case "row-reverse" => Ok(Ui.FlexDirection.RowReverse)
    case "column-reverse" => Ok(Ui.FlexDirection.ColumnReverse)
    case _ => Err(UnknownAttributeValue(value))
  }

  lemma FlexDirectionRoundTrip(v: Ui.FlexDirection)
    ensures ParseFlexDirection(FlexDirectionText(v)) == Ok(v)
  {
  }

  /** The word written for each `FlexWrap`. */
  function FlexWrapText(v: Ui.FlexWrap): string {
    match v
    case NoWrap => "nowrap"
    case Wrap => "wrap"
    case WrapReverse => "wrap-reverse"
  }

  /** The `FlexWrap` a word names; any other word is an unknown attribute value naming that word. */
  function ParseFlexWrap(value: string): (r: Result<Ui.FlexWrap, GuiseError>)
    ensures r.Ok? ==> FlexWrapText(r.value) == value
    ensures r.Err? ==> r.error == UnknownAttributeValue(value) && forall v :: FlexWrapText(v) != value
  {
    match value
    case "nowrap" => Ok(Ui.FlexWrap.NoWrap)
    case "wrap" => Ok(Ui.FlexWrap.Wrap)
    case "wrap-reverse" => Ok(Ui.FlexWrap.WrapReverse)
    case _ => Err(UnknownAttributeValue(value))
  }

  lemma FlexWrapRoundTrip(v: Ui.FlexWrap)
    ensures ParseFlexWrap(FlexWrapText(v)) == Ok(v)
  {
  }

  /** The word written for each `GridAutoFlow`. */
  function GridAutoFlowText(v: Ui.GridAutoFlow): string {
    match v
    case Row => "row"
    case Column => "column"
    case RowDense => "row-dense"
    case ColumnDense => "column-dense"
  }

  /** The `GridAutoFlow` a word names; any other word is an unknown attribute value naming that word. */
  function ParseGridAutoFlow(value: string): (r: Result<Ui.GridAutoFlow, GuiseError>)
    ensures r.Ok? ==> GridAutoFlowText(r.value) == value
    ensures r.Err? ==> r.error == UnknownAttributeValue(value) && forall v :: GridAutoFlowText(v) != value
  {
    match value
    case "row" => Ok(Ui.GridAutoFlow.Row)
    case "column" => Ok(Ui.GridAutoFlow.Column)
    case "row-dense" => Ok(Ui.GridAutoFlow.RowDense)
    case "column-dense" => Ok(Ui.GridAutoFlow.ColumnDense)
    case _ => Err(UnknownAttributeValue(value))
  }

  lemma GridAutoFlowRoundTrip(v: Ui.GridAutoFlow)
    ensures ParseGridAutoFlow(GridAutoFlowText(v)) == Ok(v)
  {
  }

  /** The word written for each `BreakLineOn`. */
  function LineBreakText(v: BreakLineOn): string {
    match v
    case NoWrap => "nowrap"
    case WordBoundary => "word"
    case AnyCharacter => "char"
  }

  /** The `BreakLineOn` a word names; any other word is an unknown attribute value naming that word. */
  function ParseLineBreak(value: string): (r: Result<BreakLineOn, GuiseError>)
    ensures r.Ok? ==> LineBreakText(r.value) == value
    ensures r.Err? ==> r.error == UnknownAttributeValue(value) && forall v :: LineBreakText(v) != value
  {
    match value
    case "nowrap" => Ok(Ui.BreakLineOn.NoWrap)
    case "word" => Ok(Ui.BreakLineOn.WordBoundary)
    case "char" => Ok(Ui.BreakLineOn.AnyCharacter)
    case _ => Err(UnknownAttributeValue(value))
  }

  lemma LineBreakRoundTrip(v: BreakLineOn)
    ensures ParseLineBreak(LineBreakText(v)) == Ok(v)
  {
  }
}
