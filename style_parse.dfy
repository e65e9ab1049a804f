/**
 * `StyleAttr::parse`: an XML attribute name and value to a style attribute. A name the style
 * grammar does not know is not an error but "not a style attribute"; a known name with a value
 * its grammar rejects is an error naming the value.
 */
module StyleParse {
  import opened Wrappers
  import opened Ui
  import opened StyleAttrs
  import opened StyleValues
  import opened Keywords

  /** The attribute names the string grammar reads. */
  predicate IsAttributeName(name: string) {
    name in {
      "position", "overflow", "overflow-x", "overflow-y", "direction", "align-items",
      "justify-items", "align-self", "justify-self", "align-content", "justify-content",
      "flex-direction", "flex-wrap", "flex-basis", "row-gap", "column-gap", "gap",
      "grid-auto-flow", "grid-row", "grid-row-start", "grid-row-span", "grid-row-end",
      "grid-column", "grid-column-start", "grid-column-span", "grid-column-end", "line-break"
    }
  }

  /** The names whose value is a keyword of an enumeration. */
  predicate IsKeywordName(name: string) {
    name in {
      "position", "overflow", "overflow-x", "overflow-y", "direction", "align-items",
      "justify-items", "align-self", "justify-self", "align-content", "justify-content",
      "flex-direction", "flex-wrap", "grid-auto-flow", "line-break"
    }
  }

  /** The names whose value is a length. */
  predicate IsLengthName(name: string) {
    name == "flex-basis" || name == "row-gap" || name == "column-gap" || name == "gap"
  }

  /** The names whose value is a grid placement. */
  predicate IsGridName(name: string) {
    name == "grid-row" || name == "grid-column"
  }

  /** `parse` does not panic: a length or grid value that the pattern matches converts. */
  predicate ParseWontPanic(name: string, value: string) {
    (IsLengthName(name) ==> ValWontPanic(value)) && (IsGridName(name) ==> GridWontPanic(value))
  }

  /** The attribute name that parses into each string-grammar attribute; expression-backed attributes have none. */
  function AttrName(attr: StyleAttr): Option<string> {
    match attr
    case Position(_) => Some("position")
    case Overflow(_) => Some("overflow")
    case OverflowX(_) => Some("overflow-x")
    case OverflowY(_) => Some("overflow-y")
    case Direction(_) => Some("direction")
    case AlignItems(_) => Some("align-items")
    case JustifyItems(_) => Some("justify-items")
    case AlignSelf(_) => Some("align-self")
    case JustifySelf(_) => Some("justify-self")
    case AlignContent(_) => Some("align-content")
    case JustifyContent(_) => Some("justify-content")
    case FlexDirection(_) => Some("flex-direction")
    case FlexWrap(_) => Some("flex-wrap")
    case FlexBasis(_) => Some("flex-basis")
    case RowGap(_) => Some("row-gap")
    case ColumnGap(_) => Some("column-gap")
    case Gap(_) => Some("gap")
    case GridAutoFlow(_) => Some("grid-auto-flow")
    case GridRow(_) => Some("grid-row")
    case GridRowStart(_) => Some("grid-row-start")
    case GridRowSpan(_) => Some("grid-row-span")
    case GridRowEnd(_) => Some("grid-row-end")
    case GridColumn(_) => Some("grid-column")
    case GridColumnStart(_) => Some("grid-column-start")
    case GridColumnSpan(_) => Some("grid-column-span")
    case GridColumnEnd(_) => Some("grid-column-end")
    case LineBreak(_) => Some("line-break")
    case _ => None
  }

  /** `StyleAttr::parse`. */
  function Parse(name: string, value: string): (r: Result<Option<StyleAttr>, GuiseError>)
    requires ParseWontPanic(name, value)
    // a name the grammar does not know is "not a style attribute", whatever the value
    ensures !IsAttributeName(name) ==> r == Ok(None)
    // a known name that parses gives an attribute
    ensures IsAttributeName(name) && r.Ok? ==> r.value.Some?
    // a rejected keyword is an unknown value, a rejected length, placement or integer an invalid one
    ensures r.Err? ==> r.error == (if IsKeywordName(name) then UnknownAttributeValue(value) else InvalidAttributeValue(value))
  {
    match name
    case "grid-row" =>
      var p := ParseGridPlacement(value); if p.Ok? then Ok(Some(GridRow(p.value))) else Err(p.error)
    case "grid-column" =>
      var p := ParseGridPlacement(value); if p.Ok? then Ok(Some(GridColumn(p.value))) else Err(p.error)
    case "position" =>
      var p := ParsePosition(value); if p.Ok? then Ok(Some(Position(p.value))) else Err(p.error)
    case "overflow" =>
      var p := ParseOverflowAxis(value); if p.Ok? then Ok(Some(StyleAttr.Overflow(p.value))) else Err(p.error)
    case "overflow-x" =>
      var p := ParseOverflowAxis(value); if p.Ok? then Ok(Some(OverflowX(p.value))) else Err(p.error)
    case "overflow-y" =>
      var p := ParseOverflowAxis(value); if p.Ok? then Ok(Some(OverflowY(p.value))) else Err(p.error)
    case "direction" =>
      var p := ParseDirection(value); if p.Ok? then Ok(Some(Direction(p.value))) else Err(p.error)
    case "align-items" =>
      var p := ParseAlignItems(value); if p.Ok? then Ok(Some(AlignItems(p.value))) else Err(p.error)
    case "justify-items" =>
      var p := ParseJustifyItems(value); if p.Ok? then Ok(Some(JustifyItems(p.value))) else Err(p.error)
    case "align-self" =>
      var p := ParseAlignSelf(value); if p.Ok? then Ok(Some(AlignSelf(p.value))) else Err(p.error)
    case "justify-self" =>
      var p := ParseJustifySelf(value); if p.Ok? then Ok(Some(JustifySelf(p.value))) else Err(p.error)
    case "align-content" =>
      var p := ParseAlignContent(value); if p.Ok? then Ok(Some(AlignContent(p.value))) else Err(p.error)
    case "justify-content" =>
      var p := ParseJustifyContent(value); if p.Ok? then Ok(Some(JustifyContent(p.value))) else Err(p.error)
    case "flex-direction" =>
      var p := ParseFlexDirection(value); if p.Ok? then Ok(Some(FlexDirection(p.value))) else Err(p.error)
    case "flex-wrap" =>
      var p := ParseFlexWrap(value); if p.Ok? then Ok(Some(FlexWrap(p.value))) else Err(p.error)
    case "flex-basis" =>
      var p := ParseVal(value); if p.Ok? then Ok(Some(FlexBasis(p.value))) else Err(p.error)
    case "row-gap" =>
      var p := ParseVal(value); if p.Ok? then Ok(Some(RowGap(p.value))) else Err(p.error)
    case "column-gap" =>
      var p := ParseVal(value); if p.Ok? then Ok(Some(ColumnGap(p.value))) else Err(p.error)
    case "gap" =>
      var p := ParseVal(value); if p.Ok? then Ok(Some(Gap(p.value))) else Err(p.error)
    case "grid-auto-flow" =>
      var p := ParseGridAutoFlow(value); if p.Ok? then Ok(Some(GridAutoFlow(p.value))) else Err(p.error)
    case "grid-row-start" =>
      var p := ParseI16(value); if p.Ok? then Ok(Some(GridRowStart(p.value))) else Err(p.error)
    case "grid-row-span" =>
      var p := ParseU16(value); if p.Ok? then Ok(Some(GridRowSpan(p.value))) else Err(p.error)
    case "grid-row-end" =>
      var p := ParseI16(value); if p.Ok? then Ok(Some(GridRowEnd(p.value))) else Err(p.error)
    case "grid-column-start" =>
      var p := ParseI16(value); if p.Ok? then Ok(Some(GridColumnStart(p.value))) else Err(p.error)
    case "grid-column-span" =>
      var p := ParseU16(value); if p.Ok? then Ok(Some(GridColumnSpan(p.value))) else Err(p.error)
    case "grid-column-end" =>
      var p := ParseI16(value); if p.Ok? then Ok(Some(GridColumnEnd(p.value))) else Err(p.error)
    case "line-break" =>
      var p := ParseLineBreak(value); if p.Ok? then Ok(Some(LineBreak(p.value))) else Err(p.error)
    case _ => Ok(None)
  }

  /** `position` accepts exactly `absolute` and `relative`. */
  lemma PositionVocabulary(value: string)
    ensures Parse("position", value).Ok? <==> value == "absolute" || value == "relative"
    ensures Parse("position", value).Err? ==> Parse("position", value).error == UnknownAttributeValue(value)
  {
  }

  /** `align-items` accepts exactly its eight keywords. */
  lemma AlignItemsVocabulary(value: string)
    ensures Parse("align-items", value).Ok? <==>
      value in {"default", "start", "end", "flex-start", "flex-end", "center", "baseline", "stretch"}
    ensures Parse("align-items", value).Err? ==> Parse("align-items", value).error == UnknownAttributeValue(value)
  {
  }

  /** `line-break` accepts exactly `nowrap`, `word` and `char`. */
  lemma LineBreakVocabulary(value: string)
    ensures Parse("line-break", value).Ok? <==> value in {"nowrap", "word", "char"}
    ensures Parse("line-break", value).Err? ==> Parse("line-break", value).error == UnknownAttributeValue(value)
  {
  }

  // A value that the name's own grammar rejects makes `parse` fail: an unknown keyword is an
  // unknown value, a rejected length, integer or placement an invalid one; both name the value.

  /** `grid-row` rejects every text that `parse_grid_placement` rejects, naming that text. */
  lemma RejectsGridRow(t: string)
    requires GridWontPanic(t) && ParseGridPlacement(t).Err?
    ensures ParseWontPanic("grid-row", t) && Parse("grid-row", t) == Err(InvalidAttributeValue(t))
  {
  }

  /** `grid-column` rejects every text that `parse_grid_placement` rejects, naming that text. */
  lemma RejectsGridColumn(t: string)
    requires GridWontPanic(t) && ParseGridPlacement(t).Err?
    ensures ParseWontPanic("grid-column", t) && Parse("grid-column", t) == Err(InvalidAttributeValue(t))
  {
  }

  /** `position` rejects every text that `ParsePosition` rejects, naming that text. */
  lemma RejectsPosition(t: string)
    requires ParsePosition(t).Err?
    ensures ParseWontPanic("position", t) && Parse("position", t) == Err(UnknownAttributeValue(t))
  {
    assert !IsGridName("position");
  }

  /** `overflow` rejects every text that `ParseOverflowAxis` rejects, naming that text. */
  lemma RejectsOverflow(t: string)
    requires ParseOverflowAxis(t).Err?
    ensures ParseWontPanic("overflow", t) && Parse("overflow", t) == Err(UnknownAttributeValue(t))
  {
    assert !IsGridName("overflow");
  }

  /** `overflow-x` rejects every text that `ParseOverflowAxis` rejects, naming that text. */
  lemma RejectsOverflowX(t: string)
    requires ParseOverflowAxis(t).Err?
    ensures ParseWontPanic("overflow-x", t) && Parse("overflow-x", t) == Err(UnknownAttributeValue(t))
  {
    assert !IsGridName("overflow-x");
  }

  /** `overflow-y` rejects every text that `ParseOverflowAxis` rejects, naming that text. */
  lemma RejectsOverflowY(t: string)
    requires ParseOverflowAxis(t).Err?
    ensures ParseWontPanic("overflow-y", t) && Parse("overflow-y", t) == Err(UnknownAttributeValue(t))
  {
    assert !IsGridName("overflow-y");
  }

  /** `direction` rejects every text that `ParseDirection` rejects, naming that text. */
  lemma RejectsDirection(t: string)
    requires ParseDirection(t).Err?
    ensures ParseWontPanic("direction", t) && Parse("direction", t) == Err(UnknownAttributeValue(t))
  {
    assert !IsGridName("direction");
  }

  /** `align-items` rejects every text that `ParseAlignItems` rejects, naming that text. */
  lemma RejectsAlignItems(t: string)
    requires ParseAlignItems(t).Err?
    ensures ParseWontPanic("align-items", t) && Parse("align-items", t) == Err(UnknownAttributeValue(t))
  {
    assert !IsGridName("align-items");
  }

  /** `justify-items` rejects every text that `ParseJustifyItems` rejects, naming that text. */
  lemma RejectsJustifyItems(t: string)
    requires ParseJustifyItems(t).Err?
    ensures ParseWontPanic("justify-items", t) && Parse("justify-items", t) == Err(UnknownAttributeValue(t))
  {
    assert !IsGridName("justify-items");
  }

  /** `align-self` rejects every text that `ParseAlignSelf` rejects, naming that text. */
  lemma RejectsAlignSelf(t: string)
    requires ParseAlignSelf(t).Err?
    ensures ParseWontPanic("align-self", t) && Parse("align-self", t) == Err(UnknownAttributeValue(t))
  {
    assert !IsGridName("align-self");
  }

  /** `justify-self` rejects every text that `ParseJustifySelf` rejects, naming that text. */
  lemma RejectsJustifySelf(t: string)
    requires ParseJustifySelf(t).Err?
    ensures ParseWontPanic("justify-self", t) && Parse("justify-self", t) == Err(UnknownAttributeValue(t))
  {
    assert !IsGridName("justify-self");
  }

  /** `align-content` rejects every text that `ParseAlignContent` rejects, naming that text. */
  lemma RejectsAlignContent(t: string)
    requires ParseAlignContent(t).Err?
    ensures ParseWontPanic("align-content", t) && Parse("align-content", t) == Err(UnknownAttributeValue(t))
  {
    assert !IsGridName("align-content");
  }

  /** `justify-content` rejects every text that `ParseJustifyContent` rejects, naming that text. */
  lemma RejectsJustifyContent(t: string)
    requires ParseJustifyContent(t).Err?
    ensures ParseWontPanic("justify-content", t) && Parse("justify-content", t) == Err(UnknownAttributeValue(t))
  {
    assert !IsGridName("justify-content");
  }

  /** `flex-direction` rejects every text that `ParseFlexDirection` rejects, naming that text. */
  lemma RejectsFlexDirection(t: string)
    requires ParseFlexDirection(t).Err?
    ensures ParseWontPanic("flex-direction", t) && Parse("flex-direction", t) == Err(UnknownAttributeValue(t))
  {
    assert !IsGridName("flex-direction");
  }

  /** `flex-wrap` rejects every text that `ParseFlexWrap` rejects, naming that text. */
  lemma RejectsFlexWrap(t: string)
    requires ParseFlexWrap(t).Err?
    ensures ParseWontPanic("flex-wrap", t) && Parse("flex-wrap", t) == Err(UnknownAttributeValue(t))
  {
    assert !IsGridName("flex-wrap");
  }

  /** `flex-basis` rejects every text that `parse_val` rejects, naming that text. */
  lemma RejectsFlexBasis(t: string)
    requires ValWontPanic(t) && ParseVal(t).Err?
    ensures ParseWontPanic("flex-basis", t) && Parse("flex-basis", t) == Err(InvalidAttributeValue(t))
  {
    assert !IsGridName("flex-basis");
  }

  /** `row-gap` rejects every text that `parse_val` rejects, naming that text. */
  lemma RejectsRowGap(t: string)
    requires ValWontPanic(t) && ParseVal(t).Err?
    ensures ParseWontPanic("row-gap", t) && Parse("row-gap", t) == Err(InvalidAttributeValue(t))
  {
    assert !IsGridName("row-gap");
  }

  /** `column-gap` rejects every text that `parse_val` rejects, naming that text. */
  lemma RejectsColumnGap(t: string)
    requires ValWontPanic(t) && ParseVal(t).Err?
    ensures ParseWontPanic("column-gap", t) && Parse("column-gap", t) == Err(InvalidAttributeValue(t))
  {
    assert !IsGridName("column-gap");
  }

  /** `gap` rejects every text that `parse_val` rejects, naming that text. */
  lemma RejectsGap(t: string)
    requires ValWontPanic(t) && ParseVal(t).Err?
    ensures ParseWontPanic("gap", t) && Parse("gap", t) == Err(InvalidAttributeValue(t))
  {
    assert !IsGridName("gap");
  }

  /** `grid-auto-flow` rejects every text that `ParseGridAutoFlow` rejects, naming that text. */
  lemma RejectsGridAutoFlow(t: string)
    requires ParseGridAutoFlow(t).Err?
    ensures ParseWontPanic("grid-auto-flow", t) && Parse("grid-auto-flow", t) == Err(UnknownAttributeValue(t))
  {
    assert !IsGridName("grid-auto-flow");
  }

  /** `grid-row-start` rejects every text that `parse_i16` rejects, naming that text. */
  lemma RejectsGridRowStart(t: string)
    requires ParseI16(t).Err?
    ensures ParseWontPanic("grid-row-start", t) && Parse("grid-row-start", t) == Err(InvalidAttributeValue(t))
  {
    assert !IsGridName("grid-row-start");
  }

  /** `grid-row-span` rejects every text that `parse_u16` rejects, naming that text. */
  lemma RejectsGridRowSpan(t: string)
    requires ParseU16(t).Err?
    ensures ParseWontPanic("grid-row-span", t) && Parse("grid-row-span", t) == Err(InvalidAttributeValue(t))
  {
    assert !IsGridName("grid-row-span");
  }

  /** `grid-row-end` rejects every text that `parse_i16` rejects, naming that text. */
  lemma RejectsGridRowEnd(t: string)
    requires ParseI16(t).Err?
    ensures ParseWontPanic("grid-row-end", t) && Parse("grid-row-end", t) == Err(InvalidAttributeValue(t))
  {
    assert !IsGridName("grid-row-end");
  }

  /** `grid-column-start` rejects every text that `parse_i16` rejects, naming that text. */
  lemma RejectsGridColumnStart(t: string)
    requires ParseI16(t).Err?
    ensures ParseWontPanic("grid-column-start", t) && Parse("grid-column-start", t) == Err(InvalidAttributeValue(t))
  {
    assert !IsGridName("grid-column-start");
  }

  /** `grid-column-span` rejects every text that `parse_u16` rejects, naming that text. */
  lemma RejectsGridColumnSpan(t: string)
    requires ParseU16(t).Err?
    ensures ParseWontPanic("grid-column-span", t) && Parse("grid-column-span", t) == Err(InvalidAttributeValue(t))
  {
    assert !IsGridName("grid-column-span");
  }

  /** `grid-column-end` rejects every text that `parse_i16` rejects, naming that text. */
  lemma RejectsGridColumnEnd(t: string)
    requires ParseI16(t).Err?
    ensures ParseWontPanic("grid-column-end", t) && Parse("grid-column-end", t) == Err(InvalidAttributeValue(t))
  {
    assert !IsGridName("grid-column-end");
  }

  /** `line-break` rejects every text that `ParseLineBreak` rejects, naming that text. */
  lemma RejectsLineBreak(t: string)
    requires ParseLineBreak(t).Err?
    ensures ParseWontPanic("line-break", t) && Parse("line-break", t) == Err(UnknownAttributeValue(t))
  {
    assert !IsGridName("line-break");
  }
}
