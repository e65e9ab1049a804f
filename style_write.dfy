/**
 * `StyleAttr::write_xml`: a string-grammar style attribute written back as one XML attribute
 * (name and value) on an element under construction. Grid placements and the expression-backed
 * attributes have no written form: the source panics on them.
 */
module StyleWrite {
  import opened Wrappers
  import opened Ui
  import opened Lexical
  import opened StyleAttrs
  import opened StyleValues
  import opened Keywords
  import opened StyleParse

  /** The attributes `write_xml` writes; on every other one it panics. */
  predicate Writable(attr: StyleAttr) {
    match attr
    case Position(_) => true
    case Overflow(_) => true
    case OverflowX(_) => true
    case OverflowY(_) => true
    case Direction(_) => true
    case AlignItems(_) => true
    case JustifyItems(_) => true
    case AlignSelf(_) => true
    case JustifySelf(_) => true
    case AlignContent(_) => true
    case JustifyContent(_) => true
    case FlexDirection(_) => true
    case FlexWrap(_) => true
    case FlexBasis(_) => true
    case RowGap(_) => true
    case ColumnGap(_) => true
    case Gap(_) => true
    case GridAutoFlow(_) => true
    case GridRowStart(_) => true
    case GridRowSpan(_) => true
    case GridRowEnd(_) => true
    case GridColumnStart(_) => true
    case GridColumnSpan(_) => true
    case GridColumnEnd(_) => true
    case LineBreak(_) => true
    case _ => false
  }

  /** Lengths must carry a well-formed numeral to read back as the same length. */
  predicate WellFormedAttr(attr: StyleAttr) {
    match attr
    case FlexBasis(v) => WellFormedVal(v)
    case RowGap(v) => WellFormedVal(v)
    case ColumnGap(v) => WellFormedVal(v)
    case Gap(v) => WellFormedVal(v)
    case _ => true
  }

  /** The XML attribute `write_xml` pushes for a writable style attribute: its name and its value text. */
  function Serialize(attr: StyleAttr): (kv: (string, string))
    requires Writable(attr)
  {
    match attr
    case Position(v) => ("position", PositionText(v))
    case Overflow(v) => ("overflow", OverflowAxisText(v))
    case OverflowX(v) => ("overflow-x", OverflowAxisText(v))
    case OverflowY(v) => ("overflow-y", OverflowAxisText(v))
    case Direction(v) => ("direction", DirectionText(v))
    case AlignItems(v) => ("align-items", AlignItemsText(v))
    case JustifyItems(v) => ("justify-items", JustifyItemsText(v))
    case AlignSelf(v) => ("align-self", AlignSelfText(v))
    case JustifySelf(v) => ("justify-self", JustifySelfText(v))
    case AlignContent(v) => ("align-content", AlignContentText(v))
    case JustifyContent(v) => ("justify-content", JustifyContentText(v))
    case FlexDirection(v) => ("flex-direction", FlexDirectionText(v))
    case FlexWrap(v) => ("flex-wrap", FlexWrapText(v))
    case FlexBasis(v) => ("flex-basis", ValToStr(v))
    case RowGap(v) => ("row-gap", ValToStr(v))
    case ColumnGap(v) => ("column-gap", ValToStr(v))
    case Gap(v) => ("gap", ValToStr(v))
    case GridAutoFlow(v) => ("grid-auto-flow", GridAutoFlowText(v))
    case GridRowStart(v) => ("grid-row-start", IntegerText(v))
    case GridRowSpan(v) => ("grid-row-span", IntegerText(v))
    case GridRowEnd(v) => ("grid-row-end", IntegerText(v))
    case GridColumnStart(v) => ("grid-column-start", IntegerText(v))
    case GridColumnSpan(v) => ("grid-column-span", IntegerText(v))
    case GridColumnEnd(v) => ("grid-column-end", IntegerText(v))
    case LineBreak(v) => ("line-break", LineBreakText(v))
  }

  /** An XML start tag being built: the attributes pushed so far, in order. */
  class XmlElement {
    var attributes: seq<(string, string)>

    constructor ()
      ensures attributes == []
    {
      attributes := [];
    }

    /** `BytesStart::push_attribute`: appends one attribute after those already pushed. */
    method PushAttribute(kv: (string, string))
      modifies this
      ensures attributes == old(attributes) + [kv]
    {
      attributes := attributes + [kv];
    }
  }

  /** `write_xml`: pushes the attribute's name and value text onto `elem` and changes nothing else. */
  method WriteXml(attr: StyleAttr, elem: XmlElement)
    requires Writable(attr)
    modifies elem
    ensures elem.attributes == old(elem.attributes) + [Serialize(attr)]
  {
    match attr
    case Position(v) => elem.PushAttribute(("position", PositionText(v)));
    case Overflow(v) => elem.PushAttribute(("overflow", OverflowAxisText(v)));
    case OverflowX(v) => elem.PushAttribute(("overflow-x", OverflowAxisText(v)));
    case OverflowY(v) => elem.PushAttribute(("overflow-y", OverflowAxisText(v)));
    case Direction(v) => elem.PushAttribute(("direction", DirectionText(v)));
    case AlignItems(v) => elem.PushAttribute(("align-items", AlignItemsText(v)));
    case JustifyItems(v) => elem.PushAttribute(("justify-items", JustifyItemsText(v)));
    case AlignSelf(v) => elem.PushAttribute(("align-self", AlignSelfText(v)));
    case JustifySelf(v) => elem.PushAttribute(("justify-self", JustifySelfText(v)));
    case AlignContent(v) => elem.PushAttribute(("align-content", AlignContentText(v)));
    case JustifyContent(v) => elem.PushAttribute(("justify-content", JustifyContentText(v)));
    case FlexDirection(v) => elem.PushAttribute(("flex-direction", FlexDirectionText(v)));
    case FlexWrap(v) => elem.PushAttribute(("flex-wrap", FlexWrapText(v)));
    case FlexBasis(v) => elem.PushAttribute(("flex-basis", ValToStr(v)));
    case RowGap(v) => elem.PushAttribute(("row-gap", ValToStr(v)));
    case ColumnGap(v) => elem.PushAttribute(("column-gap", ValToStr(v)));
    case Gap(v) => elem.PushAttribute(("gap", ValToStr(v)));
    case GridAutoFlow(v) => elem.PushAttribute(("grid-auto-flow", GridAutoFlowText(v)));
    case GridRowStart(v) => elem.PushAttribute(("grid-row-start", IntegerText(v)));
    case GridRowSpan(v) => elem.PushAttribute(("grid-row-span", IntegerText(v)));
    case GridRowEnd(v) => elem.PushAttribute(("grid-row-end", IntegerText(v)));
    case GridColumnStart(v) => elem.PushAttribute(("grid-column-start", IntegerText(v)));
    case GridColumnSpan(v) => elem.PushAttribute(("grid-column-span", IntegerText(v)));
    case GridColumnEnd(v) => elem.PushAttribute(("grid-column-end", IntegerText(v)));
    case LineBreak(v) => elem.PushAttribute(("line-break", LineBreakText(v)));
  }

  /**
   * Reading back what `write_xml` writes gives the same attribute: `parse` is a left inverse of
   * the writer on every writable attribute whose lengths are well formed.
   */
  lemma WriteParseRoundTrip(attr: StyleAttr)
    requires Writable(attr) && WellFormedAttr(attr)
    ensures ParseWontPanic(Serialize(attr).0, Serialize(attr).1)
    ensures Parse(Serialize(attr).0, Serialize(attr).1) == Ok(Some(attr))
  {
    if attr.Position? || attr.Overflow? || attr.OverflowX? || attr.OverflowY? || attr.Direction?
      || attr.AlignItems? || attr.JustifyItems? || attr.AlignSelf? || attr.JustifySelf? {
      RoundTripOfPositionToJustifySelf(attr);
    } else if attr.AlignContent? || attr.JustifyContent? || attr.FlexDirection? || attr.FlexWrap? || attr.FlexBasis?
      || attr.RowGap? || attr.ColumnGap? || attr.Gap? {
      RoundTripOfAlignContentToGap(attr);
    } else {
      RoundTripOfGridAutoFlowToLineBreak(attr);
    }
  }

  lemma RoundTripOfPositionToJustifySelf(attr: StyleAttr)
    requires attr.Position? || attr.Overflow? || attr.OverflowX? || attr.OverflowY? || attr.Direction?
      || attr.AlignItems? || attr.JustifyItems? || attr.AlignSelf? || attr.JustifySelf?
    requires WellFormedAttr(attr)
    ensures Writable(attr) && ParseWontPanic(Serialize(attr).0, Serialize(attr).1)
    ensures Parse(Serialize(attr).0, Serialize(attr).1) == Ok(Some(attr))
  {
    match attr
    case Position(v) =>
      assert Serialize(attr) == ("position", PositionText(v));
      ReadBackPosition(v);
    case Overflow(v) =>
      assert Serialize(attr) == ("overflow", OverflowAxisText(v));
      ReadBackOverflow(v);
    case OverflowX(v) =>
      assert Serialize(attr) == ("overflow-x", OverflowAxisText(v));
      ReadBackOverflowX(v);
    case OverflowY(v) =>
      assert Serialize(attr) == ("overflow-y", OverflowAxisText(v));
      ReadBackOverflowY(v);
    case Direction(v) =>
      assert Serialize(attr) == ("direction", DirectionText(v));
      ReadBackDirection(v);
    case AlignItems(v) =>
      assert Serialize(attr) == ("align-items", AlignItemsText(v));
      ReadBackAlignItems(v);
    case JustifyItems(v) =>
      assert Serialize(attr) == ("justify-items", JustifyItemsText(v));
      ReadBackJustifyItems(v);
    case AlignSelf(v) =>
      assert Serialize(attr) == ("align-self", AlignSelfText(v));
      ReadBackAlignSelf(v);
    case JustifySelf(v) =>
      assert Serialize(attr) == ("justify-self", JustifySelfText(v));
      ReadBackJustifySelf(v);
  }

  lemma RoundTripOfAlignContentToGap(attr: StyleAttr)
    requires attr.AlignContent? || attr.JustifyContent? || attr.FlexDirection? || attr.FlexWrap? || attr.FlexBasis?
      || attr.RowGap? || attr.ColumnGap? || attr.Gap?
    requires WellFormedAttr(attr)
    ensures Writable(attr) && ParseWontPanic(Serialize(attr).0, Serialize(attr).1)
    ensures Parse(Serialize(attr).0, Serialize(attr).1) == Ok(Some(attr))
  {
    match attr
    case AlignContent(v) =>
      assert Serialize(attr) == ("align-content", AlignContentText(v));
      ReadBackAlignContent(v);
    case JustifyContent(v) =>
      assert Serialize(attr) == ("justify-content", JustifyContentText(v));
      ReadBackJustifyContent(v);
    case FlexDirection(v) =>
      assert Serialize(attr) == ("flex-direction", FlexDirectionText(v));
      ReadBackFlexDirection(v);
    case FlexWrap(v) =>
      assert Serialize(attr) == ("flex-wrap", FlexWrapText(v));
      ReadBackFlexWrap(v);
    case FlexBasis(v) =>
      assert Serialize(attr) == ("flex-basis", ValToStr(v));
      ReadBackFlexBasis(v);
    case RowGap(v) =>
      assert Serialize(attr) == ("row-gap", ValToStr(v));
      ReadBackRowGap(v);
    case ColumnGap(v) =>
      assert Serialize(attr) == ("column-gap", ValToStr(v));
      ReadBackColumnGap(v);
    case Gap(v) =>
      assert Serialize(attr) == ("gap", ValToStr(v));
      ReadBackGap(v);
  }

  lemma RoundTripOfGridAutoFlowToLineBreak(attr: StyleAttr)
    requires attr.GridAutoFlow? || attr.GridRowStart? || attr.GridRowSpan? || attr.GridRowEnd? || attr.GridColumnStart?
      || attr.GridColumnSpan? || attr.GridColumnEnd? || attr.LineBreak?
    requires WellFormedAttr(attr)
    ensures Writable(attr) && ParseWontPanic(Serialize(attr).0, Serialize(attr).1)
    ensures Parse(Serialize(attr).0, Serialize(attr).1) == Ok(Some(attr))
  {
    match attr
    case GridAutoFlow(v) =>
      assert Serialize(attr) == ("grid-auto-flow", GridAutoFlowText(v));
      ReadBackGridAutoFlow(v);
    case GridRowStart(v) =>
      assert Serialize(attr) == ("grid-row-start", IntegerText(v));
      ReadBackGridRowStart(v);
    case GridRowSpan(v) =>
      assert Serialize(attr) == ("grid-row-span", IntegerText(v));
      ReadBackGridRowSpan(v);
    case GridRowEnd(v) =>
      assert Serialize(attr) == ("grid-row-end", IntegerText(v));
      ReadBackGridRowEnd(v);
    case GridColumnStart(v) =>
      assert Serialize(attr) == ("grid-column-start", IntegerText(v));
      ReadBackGridColumnStart(v);
    case GridColumnSpan(v) =>
      assert Serialize(attr) == ("grid-column-span", IntegerText(v));
      ReadBackGridColumnSpan(v);
    case GridColumnEnd(v) =>
      assert Serialize(attr) == ("grid-column-end", IntegerText(v));
      ReadBackGridColumnEnd(v);
    case LineBreak(v) =>
      assert Serialize(attr) == ("line-break", LineBreakText(v));
      ReadBackLineBreak(v);
  }

  lemma ReadBackPosition(v: PositionType)
    ensures ParseWontPanic("position", PositionText(v))
    ensures Parse("position", PositionText(v)) == Ok(Some(Position(v)))
  {
    PositionRoundTrip(v);
    ReadsPosition(PositionText(v), v);
  }

  lemma ReadBackOverflow(v: OverflowAxis)
    ensures ParseWontPanic("overflow", OverflowAxisText(v))
    ensures Parse("overflow", OverflowAxisText(v)) == Ok(Some(StyleAttr.Overflow(v)))
  {
    OverflowAxisRoundTrip(v);
    ReadsOverflow(OverflowAxisText(v), v);
  }

  lemma ReadBackOverflowX(v: OverflowAxis)
    ensures ParseWontPanic("overflow-x", OverflowAxisText(v))
    ensures Parse("overflow-x", OverflowAxisText(v)) == Ok(Some(OverflowX(v)))
  {
    OverflowAxisRoundTrip(v);
    ReadsOverflowX(OverflowAxisText(v), v);
  }

  lemma ReadBackOverflowY(v: OverflowAxis)
    ensures ParseWontPanic("overflow-y", OverflowAxisText(v))
    ensures Parse("overflow-y", OverflowAxisText(v)) == Ok(Some(OverflowY(v)))
  {
    OverflowAxisRoundTrip(v);
    ReadsOverflowY(OverflowAxisText(v), v);
  }

  lemma ReadBackDirection(v: Ui.Direction)
    ensures ParseWontPanic("direction", DirectionText(v))
    ensures Parse("direction", DirectionText(v)) == Ok(Some(Direction(v)))
  {
    DirectionRoundTrip(v);
    ReadsDirection(DirectionText(v), v);
  }

  lemma ReadBackAlignItems(v: Ui.AlignItems)
    ensures ParseWontPanic("align-items", AlignItemsText(v))
    ensures Parse("align-items", AlignItemsText(v)) == Ok(Some(AlignItems(v)))
  {
    AlignItemsRoundTrip(v);
    ReadsAlignItems(AlignItemsText(v), v);
  }

  lemma ReadBackJustifyItems(v: Ui.JustifyItems)
    ensures ParseWontPanic("justify-items", JustifyItemsText(v))
    ensures Parse("justify-items", JustifyItemsText(v)) == Ok(Some(JustifyItems(v)))
  {
    JustifyItemsRoundTrip(v);
    ReadsJustifyItems(JustifyItemsText(v), v);
  }

  lemma ReadBackAlignSelf(v: Ui.AlignSelf)
    ensures ParseWontPanic("align-self", AlignSelfText(v))
    ensures Parse("align-self", AlignSelfText(v)) == Ok(Some(AlignSelf(v)))
  {
    AlignSelfRoundTrip(v);
    ReadsAlignSelf(AlignSelfText(v), v);
  }

  lemma ReadBackJustifySelf(v: Ui.JustifySelf)
    ensures ParseWontPanic("justify-self", JustifySelfText(v))
    ensures Parse("justify-self", JustifySelfText(v)) == Ok(Some(JustifySelf(v)))
  {
    JustifySelfRoundTrip(v);
    ReadsJustifySelf(JustifySelfText(v), v);
  }

  lemma ReadBackAlignContent(v: Ui.AlignContent)
    ensures ParseWontPanic("align-content", AlignContentText(v))
    ensures Parse("align-content", AlignContentText(v)) == Ok(Some(AlignContent(v)))
  {
    AlignContentRoundTrip(v);
    ReadsAlignContent(AlignContentText(v), v);
  }

  lemma ReadBackJustifyContent(v: Ui.JustifyContent)
    ensures ParseWontPanic("justify-content", JustifyContentText(v))
    ensures Parse("justify-content", JustifyContentText(v)) == Ok(Some(JustifyContent(v)))
  {
    JustifyContentRoundTrip(v);
    ReadsJustifyContent(JustifyContentText(v), v);
  }

  lemma ReadBackFlexDirection(v: Ui.FlexDirection)
    ensures ParseWontPanic("flex-direction", FlexDirectionText(v))
    ensures Parse("flex-direction", FlexDirectionText(v)) == Ok(Some(FlexDirection(v)))
  {
    FlexDirectionRoundTrip(v);
    ReadsFlexDirection(FlexDirectionText(v), v);
  }

  lemma ReadBackFlexWrap(v: Ui.FlexWrap)
    ensures ParseWontPanic("flex-wrap", FlexWrapText(v))
    ensures Parse("flex-wrap", FlexWrapText(v)) == Ok(Some(FlexWrap(v)))
  {
    FlexWrapRoundTrip(v);
    ReadsFlexWrap(FlexWrapText(v), v);
  }

  lemma ReadBackFlexBasis(v: Val)
    requires WellFormedVal(v)
    ensures ParseWontPanic("flex-basis", ValToStr(v))
    ensures Parse("flex-basis", ValToStr(v)) == Ok(Some(FlexBasis(v)))
  {
    ValRoundTrip(v);
    ReadsFlexBasis(ValToStr(v), v);
  }

  lemma ReadBackRowGap(v: Val)
    requires WellFormedVal(v)
    ensures ParseWontPanic("row-gap", ValToStr(v))
    ensures Parse("row-gap", ValToStr(v)) == Ok(Some(RowGap(v)))
  {
    ValRoundTrip(v);
    ReadsRowGap(ValToStr(v), v);
  }

  lemma ReadBackColumnGap(v: Val)
    requires WellFormedVal(v)
    ensures ParseWontPanic("column-gap", ValToStr(v))
    ensures Parse("column-gap", ValToStr(v)) == Ok(Some(ColumnGap(v)))
  {
    ValRoundTrip(v);
    ReadsColumnGap(ValToStr(v), v);
  }

  lemma ReadBackGap(v: Val)
    requires WellFormedVal(v)
    ensures ParseWontPanic("gap", ValToStr(v))
    ensures Parse("gap", ValToStr(v)) == Ok(Some(Gap(v)))
  {
    ValRoundTrip(v);
    ReadsGap(ValToStr(v), v);
  }

  lemma ReadBackGridAutoFlow(v: Ui.GridAutoFlow)
    ensures ParseWontPanic("grid-auto-flow", GridAutoFlowText(v))
    ensures Parse("grid-auto-flow", GridAutoFlowText(v)) == Ok(Some(GridAutoFlow(v)))
  {
    GridAutoFlowRoundTrip(v);
    ReadsGridAutoFlow(GridAutoFlowText(v), v);
  }

  lemma ReadBackGridRowStart(v: I16)
    ensures ParseWontPanic("grid-row-start", IntegerText(v))
    ensures Parse("grid-row-start", IntegerText(v)) == Ok(Some(GridRowStart(v)))
  {
    I16RoundTrip(v);
    ReadsGridRowStart(IntegerText(v), v);
  }

  lemma ReadBackGridRowSpan(v: U16)
    ensures ParseWontPanic("grid-row-span", IntegerText(v))
    ensures Parse("grid-row-span", IntegerText(v)) == Ok(Some(GridRowSpan(v)))
  {
    U16RoundTrip(v);
    ReadsGridRowSpan(IntegerText(v), v);
  }

  lemma ReadBackGridRowEnd(v: I16)
    ensures ParseWontPanic("grid-row-end", IntegerText(v))
    ensures Parse("grid-row-end", IntegerText(v)) == Ok(Some(GridRowEnd(v)))
  {
    I16RoundTrip(v);
    ReadsGridRowEnd(IntegerText(v), v);
  }

  lemma ReadBackGridColumnStart(v: I16)
    ensures ParseWontPanic("grid-column-start", IntegerText(v))
    ensures Parse("grid-column-start", IntegerText(v)) == Ok(Some(GridColumnStart(v)))
  {
    I16RoundTrip(v);
    ReadsGridColumnStart(IntegerText(v), v);
  }

  lemma ReadBackGridColumnSpan(v: U16)
    ensures ParseWontPanic("grid-column-span", IntegerText(v))
    ensures Parse("grid-column-span", IntegerText(v)) == Ok(Some(GridColumnSpan(v)))
  {
    U16RoundTrip(v);
    ReadsGridColumnSpan(IntegerText(v), v);
  }

  lemma ReadBackGridColumnEnd(v: I16)
    ensures ParseWontPanic("grid-column-end", IntegerText(v))
    ensures Parse("grid-column-end", IntegerText(v)) == Ok(Some(GridColumnEnd(v)))
  {
    I16RoundTrip(v);
    ReadsGridColumnEnd(IntegerText(v), v);
  }

  lemma ReadBackLineBreak(v: BreakLineOn)
    ensures ParseWontPanic("line-break", LineBreakText(v))
    ensures Parse("line-break", LineBreakText(v)) == Ok(Some(LineBreak(v)))
  {
    LineBreakRoundTrip(v);
    ReadsLineBreak(LineBreakText(v), v);
  }

  /** `flex-basis` reads any text that `parse_val` accepts, as that length. */
  lemma ReadsFlexBasis(t: string, v: Val)
    requires ValWontPanic(t) && ParseVal(t) == Ok(v)
    ensures ParseWontPanic("flex-basis", t) && Parse("flex-basis", t) == Ok(Some(FlexBasis(v)))
  {
    assert !IsGridName("flex-basis");
  }

  /** `row-gap` reads any text that `parse_val` accepts, as that length. */
  lemma ReadsRowGap(t: string, v: Val)
    requires ValWontPanic(t) && ParseVal(t) == Ok(v)
    ensures ParseWontPanic("row-gap", t) && Parse("row-gap", t) == Ok(Some(RowGap(v)))
  {
    assert !IsGridName("row-gap");
  }

  /** `column-gap` reads any text that `parse_val` accepts, as that length. */
  lemma ReadsColumnGap(t: string, v: Val)
    requires ValWontPanic(t) && ParseVal(t) == Ok(v)
    ensures ParseWontPanic("column-gap", t) && Parse("column-gap", t) == Ok(Some(ColumnGap(v)))
  {
    assert !IsGridName("column-gap");
  }

  /** `gap` reads any text that `parse_val` accepts, as that length. */
  lemma ReadsGap(t: string, v: Val)
    requires ValWontPanic(t) && ParseVal(t) == Ok(v)
    ensures ParseWontPanic("gap", t) && Parse("gap", t) == Ok(Some(Gap(v)))
  {
    assert !IsGridName("gap");
  }

  /** `position` reads any text that `ParsePosition` accepts, as that value. */
  lemma ReadsPosition(t: string, v: PositionType)
    requires ParsePosition(t) == Ok(v)
    ensures ParseWontPanic("position", t) && Parse("position", t) == Ok(Some(Position(v)))
  {
    assert !IsGridName("position");
  }

  /** `overflow` reads any text that `ParseOverflowAxis` accepts, as that value. */
  lemma ReadsOverflow(t: string, v: OverflowAxis)
    requires ParseOverflowAxis(t) == Ok(v)
    ensures ParseWontPanic("overflow", t) && Parse("overflow", t) == Ok(Some(StyleAttr.Overflow(v)))
  {
    assert !IsGridName("overflow");
  }

  /** `overflow-x` reads any text that `ParseOverflowAxis` accepts, as that value. */
  lemma ReadsOverflowX(t: string, v: OverflowAxis)
    requires ParseOverflowAxis(t) == Ok(v)
    ensures ParseWontPanic("overflow-x", t) && Parse("overflow-x", t) == Ok(Some(OverflowX(v)))
  {
    assert !IsGridName("overflow-x");
  }

  /** `overflow-y` reads any text that `ParseOverflowAxis` accepts, as that value. */
  lemma ReadsOverflowY(t: string, v: OverflowAxis)
    requires ParseOverflowAxis(t) == Ok(v)
    ensures ParseWontPanic("overflow-y", t) && Parse("overflow-y", t) == Ok(Some(OverflowY(v)))
  {
    assert !IsGridName("overflow-y");
  }

  /** `direction` reads any text that `ParseDirection` accepts, as that value. */
  lemma ReadsDirection(t: string, v: Ui.Direction)
    requires ParseDirection(t) == Ok(v)
    ensures ParseWontPanic("direction", t) && Parse("direction", t) == Ok(Some(Direction(v)))
  {
    assert !IsGridName("direction");
  }

  /** `align-items` reads any text that `ParseAlignItems` accepts, as that value. */
  lemma ReadsAlignItems(t: string, v: Ui.AlignItems)
    requires ParseAlignItems(t) == Ok(v)
    ensures ParseWontPanic("align-items", t) && Parse("align-items", t) == Ok(Some(AlignItems(v)))
  {
    assert !IsGridName("align-items");
  }

  /** `justify-items` reads any text that `ParseJustifyItems` accepts, as that value. */
  lemma ReadsJustifyItems(t: string, v: Ui.JustifyItems)
    requires ParseJustifyItems(t) == Ok(v)
    ensures ParseWontPanic("justify-items", t) && Parse("justify-items", t) == Ok(Some(JustifyItems(v)))
  {
    assert !IsGridName("justify-items");
  }

  /** `align-self` reads any text that `ParseAlignSelf` accepts, as that value. */
  lemma ReadsAlignSelf(t: string, v: Ui.AlignSelf)
    requires ParseAlignSelf(t) == Ok(v)
    ensures ParseWontPanic("align-self", t) && Parse("align-self", t) == Ok(Some(AlignSelf(v)))
  {
    assert !IsGridName("align-self");
  }

  /** `justify-self` reads any text that `ParseJustifySelf` accepts, as that value. */
  lemma ReadsJustifySelf(t: string, v: Ui.JustifySelf)
    requires ParseJustifySelf(t) == Ok(v)
    ensures ParseWontPanic("justify-self", t) && Parse("justify-self", t) == Ok(Some(JustifySelf(v)))
  {
    assert !IsGridName("justify-self");
  }

  /** `align-content` reads any text that `ParseAlignContent` accepts, as that value. */
  lemma ReadsAlignContent(t: string, v: Ui.AlignContent)
    requires ParseAlignContent(t) == Ok(v)
    ensures ParseWontPanic("align-content", t) && Parse("align-content", t) == Ok(Some(AlignContent(v)))
  {
    assert !IsGridName("align-content");
  }

  /** `justify-content` reads any text that `ParseJustifyContent` accepts, as that value. */
  lemma ReadsJustifyContent(t: string, v: Ui.JustifyContent)
    requires ParseJustifyContent(t) == Ok(v)
    ensures ParseWontPanic("justify-content", t) && Parse("justify-content", t) == Ok(Some(JustifyContent(v)))
  {
    assert !IsGridName("justify-content");
  }

  /** `flex-direction` reads any text that `ParseFlexDirection` accepts, as that value. */
  lemma ReadsFlexDirection(t: string, v: Ui.FlexDirection)
    requires ParseFlexDirection(t) == Ok(v)
    ensures ParseWontPanic("flex-direction", t) && Parse("flex-direction", t) == Ok(Some(FlexDirection(v)))
  {
    assert !IsGridName("flex-direction");
  }

  /** `flex-wrap` reads any text that `ParseFlexWrap` accepts, as that value. */
  lemma ReadsFlexWrap(t: string, v: Ui.FlexWrap)
    requires ParseFlexWrap(t) == Ok(v)
    ensures ParseWontPanic("flex-wrap", t) && Parse("flex-wrap", t) == Ok(Some(FlexWrap(v)))
  {
    assert !IsGridName("flex-wrap");
  }

  /** `grid-auto-flow` reads any text that `ParseGridAutoFlow` accepts, as that value. */
  lemma ReadsGridAutoFlow(t: string, v: Ui.GridAutoFlow)
    requires ParseGridAutoFlow(t) == Ok(v)
    ensures ParseWontPanic("grid-auto-flow", t) && Parse("grid-auto-flow", t) == Ok(Some(GridAutoFlow(v)))
  {
    assert !IsGridName("grid-auto-flow");
  }

  /** `grid-row-start` reads any text that `ParseI16` accepts, as that value. */
  lemma ReadsGridRowStart(t: string, v: I16)
    requires ParseI16(t) == Ok(v)
    ensures ParseWontPanic("grid-row-start", t) && Parse("grid-row-start", t) == Ok(Some(GridRowStart(v)))
  {
    assert !IsGridName("grid-row-start");
  }

  /** `grid-row-span` reads any text that `ParseU16` accepts, as that value. */
  lemma ReadsGridRowSpan(t: string, v: U16)
    requires ParseU16(t) == Ok(v)
    ensures ParseWontPanic("grid-row-span", t) && Parse("grid-row-span", t) == Ok(Some(GridRowSpan(v)))
  {
    assert !IsGridName("grid-row-span");
  }

  /** `grid-row-end` reads any text that `ParseI16` accepts, as that value. */
  lemma ReadsGridRowEnd(t: string, v: I16)
    requires ParseI16(t) == Ok(v)
    ensures ParseWontPanic("grid-row-end", t) && Parse("grid-row-end", t) == Ok(Some(GridRowEnd(v)))
  {
    assert !IsGridName("grid-row-end");
  }

  /** `grid-column-start` reads any text that `ParseI16` accepts, as that value. */
  lemma ReadsGridColumnStart(t: string, v: I16)
    requires ParseI16(t) == Ok(v)
    ensures ParseWontPanic("grid-column-start", t) && Parse("grid-column-start", t) == Ok(Some(GridColumnStart(v)))
  {
    assert !IsGridName("grid-column-start");
  }

  /** `grid-column-span` reads any text that `ParseU16` accepts, as that value. */
  lemma ReadsGridColumnSpan(t: string, v: U16)
    requires ParseU16(t) == Ok(v)
    ensures ParseWontPanic("grid-column-span", t) && Parse("grid-column-span", t) == Ok(Some(GridColumnSpan(v)))
  {
    assert !IsGridName("grid-column-span");
  }

  /** `grid-column-end` reads any text that `ParseI16` accepts, as that value. */
  lemma ReadsGridColumnEnd(t: string, v: I16)
    requires ParseI16(t) == Ok(v)
    ensures ParseWontPanic("grid-column-end", t) && Parse("grid-column-end", t) == Ok(Some(GridColumnEnd(v)))
  {
    assert !IsGridName("grid-column-end");
  }

  /** `line-break` reads any text that `ParseLineBreak` accepts, as that value. */
  lemma ReadsLineBreak(t: string, v: BreakLineOn)
    requires ParseLineBreak(t) == Ok(v)
    ensures ParseWontPanic("line-break", t) && Parse("line-break", t) == Ok(Some(LineBreak(v)))
  {
    assert !IsGridName("line-break");
  }

  /**
   * `grid-row` reads any text that `parse_grid_placement` accepts, as that placement. `write_xml`
   * has no arm for grid placements, so this name is not covered by the round trip.
   */
  lemma ReadsGridRow(t: string, g: GridPlacement)
    requires GridWontPanic(t) && ParseGridPlacement(t) == Ok(g)
    ensures ParseWontPanic("grid-row", t) && Parse("grid-row", t) == Ok(Some(GridRow(g)))
  {
  }

  /** `grid-column` reads any text that `parse_grid_placement` accepts, as that placement. */
  lemma ReadsGridColumn(t: string, g: GridPlacement)
    requires GridWontPanic(t) && ParseGridPlacement(t) == Ok(g)
    ensures ParseWontPanic("grid-column", t) && Parse("grid-column", t) == Ok(Some(GridColumn(g)))
  {
  }
}
