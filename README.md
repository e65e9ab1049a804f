# guise styling engine — a Dafny model

This project models the styling engine of the `guise` UI module of panoply. It is written in
Dafny 4.11, and it proves properties of the model.

The model has five parts:

- **String attributes** (`src/guise/style/style_attr.rs`):
  - `StyleAttr` and `apply`, which writes one attribute into a `ComputedStyle`;
  - `parse`, which maps an XML attribute name and value to an attribute;
  - the value grammars `parse_val`, `parse_uirect`, `parse_grid_placement`, `parse_i16` and `parse_u16`;
  - the inverse serialisers `write_xml`, `val_to_str` and `uirect_to_str`.
- **Expression-backed style sets** (`src/guise/element_style.rs`):
  - `ElementStyleAttr`;
  - the merge loop `apply_attrs_to` / `apply_to`;
  - the closed-schema builder `from_ast`.
- **The cascade** (`src/guise/controller.rs`): `compute_style` and `update_styles`.
- **Asset references** (`src/guise/style/asset_ref.rs`): `AssetRef::new`, `resolve_asset_path` and `resolved`.
- **Template loading** (`src/guise/asset.rs`):
  - the tree rebuild `visit_template_node` / `visit_stylesheet`;
  - the labelling rule of `load`.

Modules, one per file:

| file | module | models |
|---|---|---|
| `wrappers.dfy` | `Wrappers` | `Option`, `Result` |
| `lexical.dfy` | `Lexical` | whitespace splitting, the `[\d\.]`/`[\-\d\.]` scanners, decimal integers (`i16::from_str`, `u16::from_str`, `to_string`) |
| `ui.dfy` | `Ui` | the Bevy UI value types used by the styles (`Val`, `UiRect`, the alignment enums, `GridPlacement` and its by-value setters) |
| `exprs.dfy` | `Exprs` | `Expr` and the typed conversions of an expression (`into_length`, `into_color`, ...) |
| `computed.dfy` | `Computed` | `ComputedStyle` |
| `fields.dfy` | `Fields` | a name for every individual computed field, the single-field updates the attributes perform, and the fact that each update leaves every other field alone |
| `style_attr.dfy` | `StyleAttrs` | `StyleAttr`, `apply` |
| `style_values.dfy` | `StyleValues` | `parse_val`, `val_to_str`, `parse_i16`, `parse_u16`, `parse_grid_placement`, `parse_uirect`, `uirect_to_str` |
| `keywords.dfy` | `Keywords` | the keyword vocabularies of `parse` and `write_xml` |
| `style_parse.dfy` | `StyleParse` | `StyleAttr::parse` |
| `style_write.dfy` | `StyleWrite` | `write_xml` on an XML element builder |
| `element_style.dfy` | `ElementStyles` | `ElementStyleAttr`, `apply_attrs_to`, `apply_to`, `from_ast` |
| `controller.dfy` | `Controllers` | `compute_style`, `update_styles` |
| `asset_ref.dfy` | `AssetRefs` | `AssetRef` |
| `asset.dfy` | `Assets` | `visit_template_node`, `visit_stylesheet`, the labelling rule of `load` |

Numbers inside lengths are kept as their numeral text. A length therefore reads back exactly as
written: `val_to_str` is "numeral, then unit suffix", and `parse_val` undoes it.

Some collaborators are defined in files this model does not include:
- the evaluation of expressions (`into_*`, `TypedExpr::eval`);
- `relative_asset_path`;
- `LoadContext::load`;
- `StyleAsset::resolve_asset_paths`.

Each of these is a function value passed as a parameter: an `Evaluator` or a `Loader` record.
Every property holds for all of them.

Where the source panics on an input (an `unwrap` of a malformed numeral, the `panic!` and `todo!`
arms of `write_xml`), the model takes "does not panic" as a precondition. The predicates are
`ValWontPanic`, `GridWontPanic`, `UiRectWontPanic`, `ParseWontPanic` and `Writable`. These
preconditions exclude only the inputs that panic, with three exceptions, all listed under Left out:
Bevy's `GridPlacement` setters panic on a zero line or span (so `0/1` in a grid placement), which
the model does not exclude; the panic of `from_ast` on an unsupported `background_image` value
is modelled as an error; and a non-ASCII decimal digit, which the source's Unicode `\d` matches and
whose `unwrap` then panics, is rejected by the model with `InvalidAttributeValue`. Every input the source rejects with an error is modelled with its error.

## Model

| member | source | states |
|---|---|---|
| `Lexical.PrefixLen` | src/guise/style/style_attr.rs:890 | the length of the longest prefix in a character class: every character before it is in the class, the one at it (if any) is not |
| `Lexical.PrefixLenOfConcat` | src/guise/style/style_attr.rs:890 | a run followed by a character outside the class is scanned exactly up to its end |
| `Lexical.Words` | src/guise/style/style_attr.rs:945 | `split_whitespace`: every word is non-empty and contains no whitespace; what the words are is fixed by `WordsEmptyIffBlank`, `WordsSkipWhitespace`, `WordsOfSeparated` and `WordsOfWord` |
| `Lexical.WordsEmptyIffBlank` | src/guise/style/style_attr.rs:945 | there are no words exactly when the text is empty or all whitespace |
| `Lexical.WordsOfSeparated` | src/guise/style/style_attr.rs:945 | a word, any one whitespace character and more text split into that word followed by the words of the rest |
| `Lexical.WordsSkipWhitespace` | src/guise/style/style_attr.rs:945 | a whitespace character before the text, whichever one it is, adds no word |
| `Lexical.WordsOfWord` | src/guise/style/style_attr.rs:1015-1023 | a single word splits into itself |
| `Lexical.DigitChar` | src/guise/style/style_attr.rs:812-833 | the digit character of a value below ten is a digit denoting that value |
| `Lexical.DecimalText` | src/guise/style/style_attr.rs:812-833 | decimal text is a non-empty string of digits |
| `Lexical.DecimalRoundTrip` | src/guise/style/style_attr.rs:991-998 | reading decimal text back gives the number |
| `Lexical.ParseInteger` | src/guise/style/style_attr.rs:991-998 | `from_str` for a bounded integer type: any value it returns is within the type's bounds; which texts it accepts and with what value is stated by `ParseIntegerValue` and `ParseIntegerSyntax` |
| `Lexical.ParseIntegerValue` | src/guise/style/style_attr.rs:991-998 | an optional sign (`+`, or `-` for a signed type) followed by one or more ASCII digits reads as the signed decimal value of the digits, leading zeros included, when it is in range, and is rejected when it is not |
| `Lexical.ParseIntegerSyntax` | src/guise/style/style_attr.rs:991-998 | conversely, every accepted text is an optional sign followed by one or more ASCII digits |
| `Lexical.ParseIntegerExamples` | src/guise/style/style_attr.rs:991-998 | `+7` (as `i16`) and `007` (as `u16`) both read as 7; `-7` is rejected as `u16` |
| `Lexical.IntegerText` | src/guise/style/style_attr.rs:812-833 | `to_string` of an integer is non-empty |
| `Lexical.IntegerRoundTrip` | src/guise/style/style_attr.rs:812-833 | `from_str` reads back what `to_string` writes, for every value in range (negative only for signed types) |
| `Lexical.WellFormedNumeralChars` | src/guise/style/style_attr.rs:916 | a well-formed numeral is non-empty and consists of characters of the class `[\-\d\.]` |
| `StyleAttrs.Apply` | src/guise/style/style_attr.rs:96-353 | `apply` with the grid-line arms corrected (see Findings); specified by `ApplyFrame`, `FailedConversionIsNoOp` and the per-attribute lemmas below |
| `StyleAttrs.FailedConversionIsNoOp` | src/guise/style/style_attr.rs:98-102 | an expression-backed attribute whose conversion yields nothing leaves the computed style unchanged |
| `StyleAttrs.ApplyFrame` | src/guise/style/style_attr.rs:96-353 | `apply` changes no field outside the attribute's targets, and no field at all when its conversion fails |
| `StyleAttrs.OverflowSetsBothAxes` | src/guise/style/style_attr.rs:127-130 | `Overflow(a)` sets both axes to `a`; every other field is unchanged |
| `StyleAttrs.OverflowXSetsOneAxis` | src/guise/style/style_attr.rs:131-133 | `OverflowX(a)` sets x to `a` and keeps y; every other field is unchanged |
| `StyleAttrs.OverflowYSetsOneAxis` | src/guise/style/style_attr.rs:134-136 | `OverflowY(a)` sets y to `a` and keeps x; every other field is unchanged |
| `StyleAttrs.GapSetsBothGaps` | src/guise/style/style_attr.rs:316-319 | `Gap(v)` sets both row and column gap to `v`; every other field is unchanged |
| `StyleAttrs.RowGapSetsOneGap` | src/guise/style/style_attr.rs:310-312 | `RowGap(v)` sets only the row gap |
| `StyleAttrs.ColumnGapSetsOneGap` | src/guise/style/style_attr.rs:313-315 | `ColumnGap(v)` sets only the column gap |
| `StyleAttrs.MarginLeftSetsOneSide` | src/guise/style/style_attr.rs:217-221 | a converting `MarginLeft` sets the left margin and keeps the other three sides; every other field is unchanged |
| `StyleAttrs.ZIndexSetsPresent` | src/guise/style/style_attr.rs:113-117 | a converting `ZIndex` sets `z_index` to `Some` of the converted value |
| `StyleAttrs.LineBreakSetsPresent` | src/guise/style/style_attr.rs:349-351 | `LineBreak(b)` sets `line_break` to `Some(b)`; every other field is unchanged |
| `StyleAttrs.GridRowStartSetsStart` | src/guise/style/style_attr.rs:327-329 | `GridRowStart(v)` stores `v` as the row start and keeps the row span and end (the corrected behaviour, see Findings) |
| `StyleAttrs.GridColumnSpanSetsSpan` | src/guise/style/style_attr.rs:343-345 | `GridColumnSpan(v)` stores `v` as the column span and keeps start and end (corrected behaviour) |
| `StyleAttrs.GridRowStartDiscardedAsWritten` | src/guise/style/style_attr.rs:327-329 | as written, `GridRowStart(v)` leaves the row start different from `v`, while the corrected `apply` stores it |
| `StyleAttrs.ApplyAsWritten` | src/guise/style/style_attr.rs:96-353 | `apply` as written, a separate match of its own; specified by `GridLineSetterIsNoOpAsWritten` and `AsWrittenAgreesOffGridLines` |
| `StyleAttrs.GridLineSetterIsNoOpAsWritten` | src/guise/style/style_attr.rs:324-347 | as written, each of the six grid-line attributes leaves the whole computed style unchanged |
| `StyleAttrs.AsWrittenAgreesOffGridLines` | src/guise/style/style_attr.rs:96-353 | the two independently written matches, `apply` as written and the corrected one, agree on every attribute other than the six grid-line setters |
| `StyleValues.NumeralLen` | src/guise/style/style_attr.rs:916 | the length of the numeral part matched by `[\-\d\.]+` never exceeds the text |
| `StyleValues.ParseVal` | src/guise/style/style_attr.rs:911-938 | `parse_val`: every error is an invalid value naming exactly the text; every non-`auto` result carries a well-formed numeral |
| `StyleValues.ValToStr` | src/guise/style/style_attr.rs:1001-1011 | `val_to_str`; specified by `ValRoundTrip` (it is undone by `parse_val`) and `ValTextIsWord` |
| `StyleValues.ValTextIsWord` | src/guise/style/style_attr.rs:1001-1011 | the text of a well-formed length is one whitespace-free word |
| `StyleValues.NumeralThenSuffix` | src/guise/style/style_attr.rs:916 | a numeral followed by a unit suffix is split at the end of the numeral |
| `StyleValues.ValRoundTrip` | src/guise/style/style_attr.rs:1001-1011 | `parse_val(val_to_str(v)) == v` for every length with a well-formed numeral; `auto` and each unit map back to their own variant |
| `StyleValues.UnitlessIsPixels` | src/guise/style/style_attr.rs:920-924 | a bare numeral is a length in pixels |
| `StyleValues.TrailingTextRejected` | src/guise/style/style_attr.rs:916 | a numeral followed by text that is not a unit is rejected, naming the text |
| `StyleValues.NonNumeralRejected` | src/guise/style/style_attr.rs:916 | text other than `auto` that does not start with a numeral character is rejected |
| `StyleValues.ParseValAcceptsExamples` | src/guise/style/style_attr.rs:1053-1063 | `auto`, `1`, `1px`, `1vw`, `1vh` and `1.1px` parse as in the unit tests |
| `StyleValues.ParseValRejectsBadUnit` | src/guise/style/style_attr.rs:1053-1063 | `1.1bad` is rejected |
| `StyleValues.ParseValRejectsTwoPoints` | src/guise/style/style_attr.rs:1053-1063 | `1.1.1bad` is rejected |
| `StyleValues.ParseI16` | src/guise/style/style_attr.rs:991-993 | `parse_i16`: every error is an invalid value naming exactly the text |
| `StyleValues.ParseU16` | src/guise/style/style_attr.rs:996-998 | `parse_u16`: every error is an invalid value naming exactly the text |
| `StyleValues.I16RoundTrip` | src/guise/style/style_attr.rs:991-993 | `parse_i16` reads back every `i16` written by `to_string` |
| `StyleValues.U16RoundTrip` | src/guise/style/style_attr.rs:996-998 | `parse_u16` reads back every `u16` written by `to_string` |
| `StyleValues.MatchGrid` | src/guise/style/style_attr.rs:888-893 | each capture of the two grid patterns is a non-empty run of `[\d\.]` |
| `StyleValues.RunIsNonNegative` | src/guise/style/style_attr.rs:890-892 | a run of digits and points never denotes a negative line number |
| `StyleValues.ParseGridPlacement` | src/guise/style/style_attr.rs:888-908 | `parse_grid_placement`: errors name exactly the text; a result has a non-negative start and is either (span 1, non-negative end) or (a span, no end) |
| `StyleValues.DecimalIsRun` | src/guise/style/style_attr.rs:890 | the text of a non-negative number is one run of digits |
| `StyleValues.RunThenSlash` | src/guise/style/style_attr.rs:890 | a run followed by a slash is captured exactly up to the slash |
| `StyleValues.SlashThen` | src/guise/style/style_attr.rs:890-892 | directly after the slash, the rest of the text is what follows it |
| `StyleValues.SpanRunOfDecimal` | src/guise/style/style_attr.rs:892 | `span` followed by a number captures that number |
| `StyleValues.RunBlankSlash` | src/guise/style/style_attr.rs:889-891 | a run, any whitespace and a slash: the first capture is exactly the run and the slash stands right after the whitespace |
| `StyleValues.SkipBlank` | src/guise/style/style_attr.rs:889-891 | the pattern's `\s*` skips exactly the whitespace before the next non-whitespace character |
| `StyleValues.MatchGridStartEndSpaced` | src/guise/style/style_attr.rs:889 | `a w1 / w2 b` matches the first pattern with captures `a` and `b`, for any whitespace `w1`, `w2` and any runs (leading zeros included) |
| `StyleValues.SpanRunSpaced` | src/guise/style/style_attr.rs:891 | `span`, any whitespace and a run capture that run |
| `StyleValues.MatchGridStartSpanSpaced` | src/guise/style/style_attr.rs:890-891 | `a w1 / w2 span w3 c` matches the second pattern with captures `a` and `c`, for any whitespace and any runs |
| `StyleValues.GridStartEndForm` | src/guise/style/style_attr.rs:895-901 | `a/b` gives start `a`, default span 1, end `b` |
| `StyleValues.GridStartSpanForm` | src/guise/style/style_attr.rs:902-906 | `a/span n` gives start `a`, span `n` and no end |
| `StyleValues.GridNegativeStartRejected` | src/guise/style/style_attr.rs:890-892 | a text starting with a minus sign is rejected |
| `StyleValues.SidesToRectCases` | src/guise/style/style_attr.rs:947-967 | the CSS 2.1 section 8.3 rule: right defaults to top, bottom to top, left to right, for one to four values |
| `StyleValues.BoxShorthand` | src/guise/style/style_attr.rs:943-978 | the CSS box shorthand over the words of the text; specified by `SidesToRectCases`, `BoxShorthandFollowsCss`, `BlankRectRejected`, `TooManySidesRejected`, `FirstBadSideRejected` and `UiRectRoundTrip` |
| `StyleValues.ParseUiRect` | src/guise/style/style_attr.rs:943-978 | `parse_uirect`, which pulls up to five tokens one after another from the word iterator (straight-line code, no loop), computes exactly the box-shorthand function |
| `StyleValues.BoxShorthandFollowsCss` | src/guise/style/style_attr.rs:947-967 | when one to four words all parse as lengths, the result is the CSS 2.1 section 8.3 rectangle of those lengths |
| `StyleValues.BlankRectRejected` | src/guise/style/style_attr.rs:975-977 | an empty or all-whitespace text is rejected, naming the text |
| `StyleValues.TooManySidesRejected` | src/guise/style/style_attr.rs:969-974 | five or more words whose first four are lengths are rejected, naming the whole text |
| `StyleValues.FirstBadSideRejected` | src/guise/style/style_attr.rs:947-967 | when the first words are lengths and the next is not, the error is that word's error |
| `StyleValues.TwoWords` | src/guise/style/style_attr.rs:1015-1023 | two words joined by a space split back into those two words |
| `StyleValues.ThreeWords` | src/guise/style/style_attr.rs:1015-1023 | three words joined by spaces split back into those three |
| `StyleValues.FourWords` | src/guise/style/style_attr.rs:1015-1023 | four words joined by spaces split back into those four |
| `StyleValues.UiRectToStr` | src/guise/style/style_attr.rs:1015-1023 | `uirect_to_str`; specified by `UiRectWords` and `UiRectRoundTrip` |
| `StyleValues.UiRectWords` | src/guise/style/style_attr.rs:1015-1023 | `uirect_to_str` of a well-formed rectangle is four words: top, right, bottom, left |
| `StyleValues.UiRectRoundTrip` | src/guise/style/style_attr.rs:1015-1023 | `parse_uirect(uirect_to_str(r)) == r` for every rectangle with well-formed lengths |
| `Keywords.ParsePosition` | src/guise/style/style_attr.rs:358-364 | accepted values are exactly the texts of the variants; any other value is `UnknownAttributeValue` of exactly that value |
| `Keywords.ParseOverflowAxis` | src/guise/style/style_attr.rs:366-372 | the same, for `clip` / `visible` |
| `Keywords.ParseDirection` | src/guise/style/style_attr.rs:390-397 | the same, for `inherit` / `ltr` / `rtl` |
| `Keywords.ParseAlignItems` | src/guise/style/style_attr.rs:412-424 | the same, for the eight `align-items` keywords |
| `Keywords.ParseJustifyItems` | src/guise/style/style_attr.rs:426-436 | the same, for the six `justify-items` keywords |
| `Keywords.ParseAlignSelf` | src/guise/style/style_attr.rs:438-450 | the same, for the eight `align-self` keywords |
| `Keywords.ParseJustifySelf` | src/guise/style/style_attr.rs:452-462 | the same, for the six `justify-self` keywords |
| `Keywords.ParseAlignContent` | src/guise/style/style_attr.rs:464-478 | the same, for the ten `align-content` keywords |
| `Keywords.ParseJustifyContent` | src/guise/style/style_attr.rs:480-493 | the same, for the `justify-content` keywords |
| `Keywords.ParseFlexDirection` | src/guise/style/style_attr.rs:510-518 | the same, for the four `flex-direction` keywords |
| `Keywords.ParseFlexWrap` | src/guise/style/style_attr.rs:520-527 | the same, for `nowrap` / `wrap` / `wrap-reverse` |
| `Keywords.ParseGridAutoFlow` | src/guise/style/style_attr.rs:539-547 | the same, for the four `grid-auto-flow` keywords |
| `Keywords.ParseLineBreak` | src/guise/style/style_attr.rs:562-569 | the same, for `nowrap` / `word` / `char` |
| `Keywords.PositionText` | src/guise/style/style_attr.rs:577-585 | the keyword `write_xml` writes; specified by `PositionRoundTrip` |
| `Keywords.OverflowAxisText` | src/guise/style/style_attr.rs:587-595 | the keyword `write_xml` writes; specified by `OverflowAxisRoundTrip` |
| `Keywords.DirectionText` | src/guise/style/style_attr.rs:617-626 | the keyword `write_xml` writes; specified by `DirectionRoundTrip` |
| `Keywords.AlignItemsText` | src/guise/style/style_attr.rs:659-673 | the keyword `write_xml` writes; specified by `AlignItemsRoundTrip` |
| `Keywords.JustifyItemsText` | src/guise/style/style_attr.rs:675-687 | the keyword `write_xml` writes; specified by `JustifyItemsRoundTrip` |
| `Keywords.AlignSelfText` | src/guise/style/style_attr.rs:689-703 | the keyword `write_xml` writes; specified by `AlignSelfRoundTrip` |
| `Keywords.JustifySelfText` | src/guise/style/style_attr.rs:705-717 | the keyword `write_xml` writes; specified by `JustifySelfRoundTrip` |
| `Keywords.AlignContentText` | src/guise/style/style_attr.rs:719-735 | the keyword `write_xml` writes; specified by `AlignContentRoundTrip` |
| `Keywords.JustifyContentText` | src/guise/style/style_attr.rs:737-752 | the keyword `write_xml` writes; specified by `JustifyContentRoundTrip` |
| `Keywords.FlexDirectionText` | src/guise/style/style_attr.rs:754-764 | the keyword `write_xml` writes; specified by `FlexDirectionRoundTrip` |
| `Keywords.FlexWrapText` | src/guise/style/style_attr.rs:766-776 | the keyword `write_xml` writes; specified by `FlexWrapRoundTrip` |
| `Keywords.GridAutoFlowText` | src/guise/style/style_attr.rs:797-807 | the keyword `write_xml` writes; specified by `GridAutoFlowRoundTrip` |
| `Keywords.LineBreakText` | src/guise/style/style_attr.rs:835-844 | the keyword `write_xml` writes; specified by `LineBreakRoundTrip` |
| `Keywords.PositionRoundTrip` | src/guise/style/style_attr.rs:577-585 | the keyword `write_xml` writes for a position reads back as that position |
| `Keywords.OverflowAxisRoundTrip` | src/guise/style/style_attr.rs:587-595 | the same, for overflow axes |
| `Keywords.DirectionRoundTrip` | src/guise/style/style_attr.rs:617-626 | the same, for directions |
| `Keywords.AlignItemsRoundTrip` | src/guise/style/style_attr.rs:659-673 | the same, for `AlignItems` |
| `Keywords.JustifyItemsRoundTrip` | src/guise/style/style_attr.rs:675-687 | the same, for `JustifyItems` |
| `Keywords.AlignSelfRoundTrip` | src/guise/style/style_attr.rs:689-703 | the same, for `AlignSelf` |
| `Keywords.JustifySelfRoundTrip` | src/guise/style/style_attr.rs:705-717 | the same, for `JustifySelf` |
| `Keywords.AlignContentRoundTrip` | src/guise/style/style_attr.rs:719-735 | the same, for `AlignContent` |
| `Keywords.JustifyContentRoundTrip` | src/guise/style/style_attr.rs:737-752 | the same, for `JustifyContent` |
| `Keywords.FlexDirectionRoundTrip` | src/guise/style/style_attr.rs:754-764 | the same, for `FlexDirection` |
| `Keywords.FlexWrapRoundTrip` | src/guise/style/style_attr.rs:766-776 | the same, for `FlexWrap` |
| `Keywords.GridAutoFlowRoundTrip` | src/guise/style/style_attr.rs:797-807 | the same, for `GridAutoFlow` |
| `Keywords.LineBreakRoundTrip` | src/guise/style/style_attr.rs:835-844 | the same, for `BreakLineOn` |
| `StyleParse.Parse` | src/guise/style/style_attr.rs:356-573 | an unknown name gives `Ok(None)` whatever the value; a known name that parses gives an attribute; a rejected keyword is `UnknownAttributeValue(value)`, a rejected length, placement or integer is `InvalidAttributeValue(value)`; per name, `StyleWrite.Reads*` and `StyleParse.Rejects*` state what is built from an accepted value and that a rejected value is an error |
| `StyleParse.PositionVocabulary` | src/guise/style/style_attr.rs:358-364 | `position` accepts exactly `absolute` and `relative`; anything else is an unknown value naming it |
| `StyleParse.AlignItemsVocabulary` | src/guise/style/style_attr.rs:412-424 | `align-items` accepts exactly its eight keywords |
| `StyleParse.LineBreakVocabulary` | src/guise/style/style_attr.rs:562-569 | `line-break` accepts exactly `nowrap`, `word` and `char` |
| `StyleParse.RejectsFlexBasis` | src/guise/style/style_attr.rs:533 | `flex-basis` fails with `InvalidAttributeValue` of the value on every text `parse_val` rejects |
| `StyleParse.RejectsRowGap` | src/guise/style/style_attr.rs:535 | `row-gap` fails with `InvalidAttributeValue` of the value on every text `parse_val` rejects |
| `StyleParse.RejectsColumnGap` | src/guise/style/style_attr.rs:536 | `column-gap` fails with `InvalidAttributeValue` of the value on every text `parse_val` rejects |
| `StyleParse.RejectsGap` | src/guise/style/style_attr.rs:537 | `gap` fails with `InvalidAttributeValue` of the value on every text `parse_val` rejects |
| `StyleParse.RejectsPosition` | src/guise/style/style_attr.rs:358-364 | `position` fails with `UnknownAttributeValue` of the value on every text `ParsePosition` rejects |
| `StyleParse.RejectsOverflow` | src/guise/style/style_attr.rs:366-372 | `overflow` fails with `UnknownAttributeValue` of the value on every text `ParseOverflowAxis` rejects |
| `StyleParse.RejectsOverflowX` | src/guise/style/style_attr.rs:374-380 | `overflow-x` fails with `UnknownAttributeValue` of the value on every text `ParseOverflowAxis` rejects |
| `StyleParse.RejectsOverflowY` | src/guise/style/style_attr.rs:382-388 | `overflow-y` fails with `UnknownAttributeValue` of the value on every text `ParseOverflowAxis` rejects |
| `StyleParse.RejectsDirection` | src/guise/style/style_attr.rs:390-397 | `direction` fails with `UnknownAttributeValue` of the value on every text `ParseDirection` rejects |
| `StyleParse.RejectsAlignItems` | src/guise/style/style_attr.rs:412-424 | `align-items` fails with `UnknownAttributeValue` of the value on every text `ParseAlignItems` rejects |
| `StyleParse.RejectsJustifyItems` | src/guise/style/style_attr.rs:426-436 | `justify-items` fails with `UnknownAttributeValue` of the value on every text `ParseJustifyItems` rejects |
| `StyleParse.RejectsAlignSelf` | src/guise/style/style_attr.rs:438-450 | `align-self` fails with `UnknownAttributeValue` of the value on every text `ParseAlignSelf` rejects |
| `StyleParse.RejectsJustifySelf` | src/guise/style/style_attr.rs:452-462 | `justify-self` fails with `UnknownAttributeValue` of the value on every text `ParseJustifySelf` rejects |
| `StyleParse.RejectsAlignContent` | src/guise/style/style_attr.rs:464-478 | `align-content` fails with `UnknownAttributeValue` of the value on every text `ParseAlignContent` rejects |
| `StyleParse.RejectsJustifyContent` | src/guise/style/style_attr.rs:480-493 | `justify-content` fails with `UnknownAttributeValue` of the value on every text `ParseJustifyContent` rejects |
| `StyleParse.RejectsFlexDirection` | src/guise/style/style_attr.rs:510-518 | `flex-direction` fails with `UnknownAttributeValue` of the value on every text `ParseFlexDirection` rejects |
| `StyleParse.RejectsFlexWrap` | src/guise/style/style_attr.rs:520-527 | `flex-wrap` fails with `UnknownAttributeValue` of the value on every text `ParseFlexWrap` rejects |
| `StyleParse.RejectsGridAutoFlow` | src/guise/style/style_attr.rs:539-547 | `grid-auto-flow` fails with `UnknownAttributeValue` of the value on every text `ParseGridAutoFlow` rejects |
| `StyleParse.RejectsGridRowStart` | src/guise/style/style_attr.rs:554 | `grid-row-start` fails with `InvalidAttributeValue` of the value on every text `parse_i16` rejects |
| `StyleParse.RejectsGridRowSpan` | src/guise/style/style_attr.rs:555 | `grid-row-span` fails with `InvalidAttributeValue` of the value on every text `parse_u16` rejects |
| `StyleParse.RejectsGridRowEnd` | src/guise/style/style_attr.rs:556 | `grid-row-end` fails with `InvalidAttributeValue` of the value on every text `parse_i16` rejects |
| `StyleParse.RejectsGridColumnStart` | src/guise/style/style_attr.rs:558 | `grid-column-start` fails with `InvalidAttributeValue` of the value on every text `parse_i16` rejects |
| `StyleParse.RejectsGridColumnSpan` | src/guise/style/style_attr.rs:559 | `grid-column-span` fails with `InvalidAttributeValue` of the value on every text `parse_u16` rejects |
| `StyleParse.RejectsGridColumnEnd` | src/guise/style/style_attr.rs:560 | `grid-column-end` fails with `InvalidAttributeValue` of the value on every text `parse_i16` rejects |
| `StyleParse.RejectsLineBreak` | src/guise/style/style_attr.rs:562-569 | `line-break` fails with `UnknownAttributeValue` of the value on every text `ParseLineBreak` rejects |
| `StyleParse.RejectsGridRow` | src/guise/style/style_attr.rs:553 | `grid-row` fails with `InvalidAttributeValue` of the value on every text `parse_grid_placement` rejects |
| `StyleParse.RejectsGridColumn` | src/guise/style/style_attr.rs:557 | `grid-column` fails with `InvalidAttributeValue` of the value on every text `parse_grid_placement` rejects |
| `StyleWrite.XmlElement.constructor` | src/guise/style/style_attr.rs:575 | a new element has no attributes |
| `StyleWrite.XmlElement.PushAttribute` | src/guise/style/style_attr.rs:578 | `push_attribute` appends one attribute after those already pushed |
| `StyleWrite.Serialize` | src/guise/style/style_attr.rs:575-850 | the (name, text) pair `write_xml` pushes for an attribute; specified by `WriteParseRoundTrip` and the `ReadBack*` lemmas |
| `StyleWrite.WriteXml` | src/guise/style/style_attr.rs:575-850 | `write_xml` appends exactly the attribute's (name, text) pair and nothing else |
| `StyleWrite.WriteParseRoundTrip` | src/guise/style/style_attr.rs:575-850 | for every attribute `write_xml` can write (with well-formed lengths), `parse` of the written pair gives back the same attribute |
| `StyleWrite.ReadBackPosition` | src/guise/style/style_attr.rs:358-364 | the written `position` pair parses back to the same `Position` |
| `StyleWrite.ReadBackOverflow` | src/guise/style/style_attr.rs:366-372 | the written `overflow` pair parses back to the same `Overflow` |
| `StyleWrite.ReadBackOverflowX` | src/guise/style/style_attr.rs:374-380 | the same, for `overflow-x` |
| `StyleWrite.ReadBackOverflowY` | src/guise/style/style_attr.rs:382-388 | the same, for `overflow-y` |
| `StyleWrite.ReadBackDirection` | src/guise/style/style_attr.rs:390-397 | the same, for `direction` |
| `StyleWrite.ReadBackAlignItems` | src/guise/style/style_attr.rs:412-424 | the same, for `align-items` |
| `StyleWrite.ReadBackJustifyItems` | src/guise/style/style_attr.rs:426-436 | the same, for `justify-items` |
| `StyleWrite.ReadBackAlignSelf` | src/guise/style/style_attr.rs:438-450 | the same, for `align-self` |
| `StyleWrite.ReadBackJustifySelf` | src/guise/style/style_attr.rs:452-462 | the same, for `justify-self` |
| `StyleWrite.ReadBackAlignContent` | src/guise/style/style_attr.rs:464-478 | the same, for `align-content` |
| `StyleWrite.ReadBackJustifyContent` | src/guise/style/style_attr.rs:480-493 | the same, for `justify-content` |
| `StyleWrite.ReadBackFlexDirection` | src/guise/style/style_attr.rs:510-518 | the same, for `flex-direction` |
| `StyleWrite.ReadBackFlexWrap` | src/guise/style/style_attr.rs:520-527 | the same, for `flex-wrap` |
| `StyleWrite.ReadBackFlexBasis` | src/guise/style/style_attr.rs:533 | the same, for `flex-basis` with a well-formed length |
| `StyleWrite.ReadBackRowGap` | src/guise/style/style_attr.rs:535 | the same, for `row-gap` |
| `StyleWrite.ReadBackColumnGap` | src/guise/style/style_attr.rs:536 | the same, for `column-gap` |
| `StyleWrite.ReadBackGap` | src/guise/style/style_attr.rs:537 | the same, for `gap` |
| `StyleWrite.ReadBackGridAutoFlow` | src/guise/style/style_attr.rs:539-547 | the same, for `grid-auto-flow` |
| `StyleWrite.ReadBackGridRowStart` | src/guise/style/style_attr.rs:554 | the same, for `grid-row-start` and every `i16` |
| `StyleWrite.ReadBackGridRowSpan` | src/guise/style/style_attr.rs:555 | the same, for `grid-row-span` and every `u16` |
| `StyleWrite.ReadBackGridRowEnd` | src/guise/style/style_attr.rs:556 | the same, for `grid-row-end` |
| `StyleWrite.ReadBackGridColumnStart` | src/guise/style/style_attr.rs:558 | the same, for `grid-column-start` |
| `StyleWrite.ReadBackGridColumnSpan` | src/guise/style/style_attr.rs:559 | the same, for `grid-column-span` |
| `StyleWrite.ReadBackGridColumnEnd` | src/guise/style/style_attr.rs:560 | the same, for `grid-column-end` |
| `StyleWrite.ReadBackLineBreak` | src/guise/style/style_attr.rs:562-569 | the same, for `line-break` |
| `StyleWrite.ReadsFlexBasis` | src/guise/style/style_attr.rs:533 | `flex-basis` reads any text `parse_val` accepts as that length |
| `StyleWrite.ReadsRowGap` | src/guise/style/style_attr.rs:535 | the same, for `row-gap` |
| `StyleWrite.ReadsColumnGap` | src/guise/style/style_attr.rs:536 | the same, for `column-gap` |
| `StyleWrite.ReadsGap` | src/guise/style/style_attr.rs:537 | the same, for `gap` |
| `StyleWrite.ReadsPosition` | src/guise/style/style_attr.rs:358-364 | `position` reads any value `ParsePosition` accepts as that position |
| `StyleWrite.ReadsOverflow` | src/guise/style/style_attr.rs:366-372 | the same, for `overflow` and `ParseOverflowAxis` |
| `StyleWrite.ReadsOverflowX` | src/guise/style/style_attr.rs:374-380 | the same, for `overflow-x` |
| `StyleWrite.ReadsOverflowY` | src/guise/style/style_attr.rs:382-388 | the same, for `overflow-y` |
| `StyleWrite.ReadsDirection` | src/guise/style/style_attr.rs:390-397 | the same, for `direction` |
| `StyleWrite.ReadsAlignItems` | src/guise/style/style_attr.rs:412-424 | the same, for `align-items` |
| `StyleWrite.ReadsJustifyItems` | src/guise/style/style_attr.rs:426-436 | the same, for `justify-items` |
| `StyleWrite.ReadsAlignSelf` | src/guise/style/style_attr.rs:438-450 | the same, for `align-self` |
| `StyleWrite.ReadsJustifySelf` | src/guise/style/style_attr.rs:452-462 | the same, for `justify-self` |
| `StyleWrite.ReadsAlignContent` | src/guise/style/style_attr.rs:464-478 | the same, for `align-content` |
| `StyleWrite.ReadsJustifyContent` | src/guise/style/style_attr.rs:480-493 | the same, for `justify-content` |
| `StyleWrite.ReadsFlexDirection` | src/guise/style/style_attr.rs:510-518 | the same, for `flex-direction` |
| `StyleWrite.ReadsFlexWrap` | src/guise/style/style_attr.rs:520-527 | the same, for `flex-wrap` |
| `StyleWrite.ReadsGridAutoFlow` | src/guise/style/style_attr.rs:539-547 | the same, for `grid-auto-flow` |
| `StyleWrite.ReadsGridRowStart` | src/guise/style/style_attr.rs:554 | `grid-row-start` reads any text `parse_i16` accepts as that line |
| `StyleWrite.ReadsGridRowSpan` | src/guise/style/style_attr.rs:555 | `grid-row-span` reads any text `parse_u16` accepts as that span |
| `StyleWrite.ReadsGridRowEnd` | src/guise/style/style_attr.rs:556 | the same, for `grid-row-end` |
| `StyleWrite.ReadsGridColumnStart` | src/guise/style/style_attr.rs:558 | the same, for `grid-column-start` |
| `StyleWrite.ReadsGridColumnSpan` | src/guise/style/style_attr.rs:559 | the same, for `grid-column-span` |
| `StyleWrite.ReadsGridColumnEnd` | src/guise/style/style_attr.rs:560 | the same, for `grid-column-end` |
| `StyleWrite.ReadsLineBreak` | src/guise/style/style_attr.rs:562-569 | the same, for `line-break` |
| `StyleWrite.ReadsGridRow` | src/guise/style/style_attr.rs:553 | `grid-row` reads any text `parse_grid_placement` accepts as that placement |
| `StyleWrite.ReadsGridColumn` | src/guise/style/style_attr.rs:557 | the same, for `grid-column` |
| `ElementStyles.ApplyAttr` | src/guise/element_style.rs:155-408 | one arm of the loop in `apply_attrs_to`; specified by `ApplyAttrFrame`, `FailedAttrIsNoOp` and the per-attribute lemmas below |
| `ElementStyles.FailedAttrIsNoOp` | src/guise/element_style.rs:158-162 | an attribute whose evaluation fails leaves the computed style unchanged |
| `ElementStyles.ApplyAttrFrame` | src/guise/element_style.rs:152-408 | one attribute changes no field outside its targets, and nothing when its evaluation fails |
| `ElementStyles.ApplyAttrsTo` | src/guise/element_style.rs:152-408 | the loop over the attributes computes the forward merge (fold in list order) |
| `ElementStyles.ApplyTo` | src/guise/element_style.rs:147-150 | `apply_to` is the merge of the style's attributes |
| `ElementStyles.Merge` | src/guise/element_style.rs:152-153 | the attributes applied one after another in list order; specified by `MergeAppend`, `MergeSingle`, `SkipFailedAttr`, `MergeKeepsUnwritten` and `LastWriteWins`, and computed by the loop `ApplyAttrsTo` |
| `ElementStyles.MergeAppend` | src/guise/element_style.rs:152-153 | merging `a + b` is merging `b` on top of the merge of `a` |
| `ElementStyles.MergeSingle` | src/guise/element_style.rs:152-153 | merging one attribute is applying it |
| `ElementStyles.SkipFailedAttr` | src/guise/element_style.rs:158-162 | a failing attribute can be removed from the list without changing the result; later ones still apply |
| `ElementStyles.MergeKeepsUnwritten` | src/guise/element_style.rs:152-408 | a field no attribute writes keeps its value through the merge |
| `ElementStyles.LastWriteWins` | src/guise/element_style.rs:152-153 | a field set by attribute `i` and written by no later attribute has the value attribute `i` gives it |
| `ElementStyles.OverflowThenOverflowX` | src/guise/element_style.rs:188-203 | `Overflow` writes both axes; a later `OverflowX` changes only x and keeps y from the composite |
| `ElementStyles.GapWritesBothGaps` | src/guise/element_style.rs:369-374 | `Gap` writes both gaps |
| `ElementStyles.RowGapWritesOneGap` | src/guise/element_style.rs:364-368 | `RowGap` writes the row gap and keeps the column gap |
| `ElementStyles.ColumnGapWritesOneGap` | src/guise/element_style.rs:359-363 | `ColumnGap` writes the column gap and keeps the row gap |
| `ElementStyles.BackgroundImageOverwrites` | src/guise/element_style.rs:155-157 | `BackgroundImage` always applies and overwrites the image, also with `None` |
| `ElementStyles.ZIndexIsPresent` | src/guise/element_style.rs:173-177 | a successful `ZIndex` sets `Some(value)`; a failing one keeps the old z-index |
| `ElementStyles.MarginLeftWritesOneSide` | src/guise/element_style.rs:264-268 | `MarginLeft` changes only the left side of the margin |
| `ElementStyles.AttrFor` | src/guise/element_style.rs:417-499 | the attribute one member of `from_ast` builds from its key and expression; specified by `UnknownPropertyRejected`, `KnownPropertyAccepted`, `BackgroundImageValues`, `RejectionNamesKey` and `AttrForOfKey` |
| `ElementStyles.UnknownPropertyRejected` | src/guise/element_style.rs:417-499 | an unrecognised key is an error naming that key |
| `ElementStyles.KnownPropertyAccepted` | src/guise/element_style.rs:417-499 | every recognised key other than `background_image` gives an attribute |
| `ElementStyles.BackgroundImageValues` | src/guise/element_style.rs:420-433 | `background_image` accepts exactly an asset path (giving `Some(handle)`), `null` and `none` (giving `None`) |
| `ElementStyles.RejectionNamesKey` | src/guise/element_style.rs:417-499 | every rejection of a key is an error about that key |
| `ElementStyles.AttrForOfKey` | src/guise/element_style.rs:417-499 | every expression-backed attribute is what its own key builds from its expression |
| `ElementStyles.FromAst` | src/guise/element_style.rs:410-500 | succeeds exactly when every member is accepted; otherwise fails with one member's error, and an unknown key always fails; on success gives exactly one attribute per member, each built from that member |
| `Controllers.SheetAttrs` | src/guise/controller.rs:32-39 | the attributes of the loaded stylesheets, in handle order; specified by `SheetAttrsAppend` and `MissingSheetSkipped` |
| `Controllers.Cascade` | src/guise/controller.rs:26-43 | the stylesheets in handle order, then the inline style, merged onto the computed style; specified by `LaterSheetOnTop`, `InlineWins`, and computed by the loop `ComputeStyle` |
| `Controllers.ComputeStyle` | src/guise/controller.rs:26-43 | the loop computes the cascade: stylesheets in handle order, missing ones skipped, then the inline style |
| `Controllers.UpdateStyles` | src/guise/controller.rs:14-24 | the result is the cascade applied to the default computed style |
| `Controllers.SheetAttrsAppend` | src/guise/controller.rs:32-39 | the stylesheet attributes of `h1 + h2` are those of `h1` followed by those of `h2` |
| `Controllers.MissingSheetSkipped` | src/guise/controller.rs:33-38 | a handle with no loaded asset can be dropped without changing the result |
| `Controllers.LaterSheetOnTop` | src/guise/controller.rs:32-39 | a later stylesheet is applied on top of the earlier ones |
| `Controllers.InlineWins` | src/guise/controller.rs:40-42 | a field the inline style sets has the inline value, whatever the stylesheets contain |
| `AssetRefs.AssetRef.constructor` | src/guise/style/asset_ref.rs:12-17 | stores the path and an unresolved path with no label |
| `AssetRefs.AssetRef.ResolveAssetPath` | src/guise/style/asset_ref.rs:19-21 | sets `resolved` to the path anchored at the base and leaves `path` unchanged |
| `AssetRefs.ResolveForgetsPrevious` | src/guise/style/asset_ref.rs:19-21 | resolution depends only on the path and the base, not on an earlier resolution |
| `AssetRefs.ResolveIdempotent` | src/guise/style/asset_ref.rs:19-21 | resolving twice with the same base is resolving once |
| `AssetRefs.LastBaseWins` | src/guise/style/asset_ref.rs:19-21 | resolving with `b1` and then `b2` is resolving with `b2` alone |
| `Assets.VisitTemplateNode` | src/guise/asset.rs:36-91 | the tree rebuild of `visit_template_node`; specified by `VisitKeepsShape`, `VisitResolvesReferences` and `VisitResolvesInline` |
| `Assets.VisitInline` | src/guise/asset.rs:50-59 | the inline-style arm of the rebuild; specified by `VisitResolvesInline` |
| `Assets.VisitKeepsShape` | src/guise/asset.rs:36-91 | the rebuilt tree has the same shape, names, ids, controllers, attributes, text and children (count and order) as the original |
| `Assets.VisitResolvesReferences` | src/guise/asset.rs:44-49 | after the rebuild, every element has one handle per stylesheet name, in order, and every call has the handle of its template |
| `Assets.VisitResolvesInline` | src/guise/asset.rs:50-59 | an absent inline style stays absent; a present one is replaced by its resolved copy |
| `Assets.PublishedTemplateContent` | src/guise/asset.rs:126-128 | a template without content is published without content, and one with content keeps content |
| `Assets.StyleLabel` | src/guise/asset.rs:110 | the label of a style, `styles/<key>`; specified by `LabelsDistinct` |
| `Assets.TemplateLabel` | src/guise/asset.rs:119 | the label of a template, `templates/<key>`; specified by `LabelsDistinct` |
| `Assets.LabelsDistinct` | src/guise/asset.rs:110-119 | distinct keys get distinct labels, and no style label equals a template label |
| `Assets.LabelsGrow` | src/guise/asset.rs:109-130 | draining one more key adds exactly its label to the labels published so far |
| `Assets.LoadContext.constructor` | src/guise/asset.rs:98-104 | a new load context holds the document path and no labelled assets |
| `Assets.LoadContext.AddLabeledAsset` | src/guise/asset.rs:117 | adds or replaces one labelled asset and keeps the others |
| `Assets.LoadContext.PublishStyles` | src/guise/asset.rs:109-118 | every style is published under `styles/<key>`, resolved against the document path with that label; other labels keep their assets |
| `Assets.LoadContext.PublishTemplates` | src/guise/asset.rs:119-130 | every template is published under `templates/<key>` with its tree rebuilt against that label; other labels keep their assets |
| `Assets.LoadContext.Load` | src/guise/asset.rs:98-133 | `load` publishes all styles and templates under their labels and returns the drained (empty) document |

## Left out

- `parse_color` and `color_to_str` (src/guise/style/style_attr.rs:853-885, 1025-1043) are not modelled. They rely on `Color::hex`, on regexes over colour syntax and on floating-point rgba/hsla values.
- Floating point: numbers inside lengths are kept as numeral text. `f32::from_str` and the `{}` formatting of floats are not modelled. A well-formed numeral is assumed to convert; the panic in the `unwrap` on a malformed numeral becomes the precondition `ValWontPanic`. Flex grow and shrink are only copied.
- `parse_f32` and `parse_i32` are not modelled, because no arm of `parse` uses them.
- `StyleParse.Parse`: its own contract states only the kind of error and that an unknown name is not an attribute. Which attribute a known name builds, and that a value the name's grammar rejects is an error, are stated name by name: by the `StyleWrite.Reads*` lemmas (every accepted value gives the attribute of that name holding that value) and the `StyleParse.Rejects*` lemmas (every rejected value gives the error naming the value).
- `StyleValues.ParseGridPlacement`: the `unwrap` of a capture that `i16::from_str`/`u16::from_str` rejects (out of range, or containing a point, as in `1.5/2`) panics in the source. It is a precondition here (`GridWontPanic`).
- `StyleValues.ParseUiRect`: a side that parses is assumed not to panic in `parse_val` (`UiRectWontPanic`).
- `StyleWrite.WriteXml`: the `panic!` arms for `GridRow`/`GridColumn` and the `todo!` arm for the expression-backed attributes are excluded by the precondition `Writable`.
- Regex `\d` is taken as the ASCII digits. The `regex` crate's `\d` is Unicode (`\p{Nd}`), so on a non-ASCII decimal digit the source's pattern matches and the `unwrap` of `f32::from_str`/`i16::from_str`/`u16::from_str` panics; the model rejects such a text with `InvalidAttributeValue` instead (`ParseVal`, `ParseGridPlacement`, and through them the `StyleParse.Rejects*` lemmas of the length and grid names). `\s` and `split_whitespace` are taken as the Unicode White_Space characters.
- Bevy's `GridPlacement` setters validate their argument (a zero line or span panics). The model stores the value unchecked.
- The `&mut ComputedStyle` parameters are modelled by passing the value in and returning the new value. `ComputedStyle` is a plain record and nothing aliases it.
- `ComputedStyle::default()` is defined outside the files modelled. The model uses a constant with Bevy's documented defaults, and no property depends on its field values.
- The two `ComputedStyle` types of the source are modelled as one record.
- `StyleAsset::apply_to` is modelled as the same forward merge as `ElementStyle::apply_to`.
- `TypedExpr::from_expr` is modelled as the identity: attributes hold the `Expr`.
- The `into_*` conversions and `TypedExpr::eval` are modelled by one `Evaluator` parameter.
- `from_ast` iterates a `HashMap`. The model picks members in an unspecified order and claims no order among the attributes it builds. Its `background_image` arm panics on unsupported values in the source; the model returns a distinct error instead.
- Logging (`info!`, `warn!`), `Commands` / `UpdateComputedStyle`, `attach` and the `bevy_trait_query` attribute are left out.
- The asynchronous reader, the `serde_json` decode and its `expect`, and `begin_labeled_asset` are left out.
- The `Arc` sharing of unchanged nodes is modelled as value equality.
- The order of handle requests made by `lc.load` during the rebuild is not modelled. `load` is a pure function of the anchored path.
- `relative_asset_path`, `LoadContext::load` and `StyleAsset::resolve_asset_paths` are parameters.
- The `drain` order of the documents' maps is unspecified. `Load` publishes in an arbitrary order, and its contract holds for every order.

## Findings

| source | as written | input that shows it | evidently intended | confidence | as-written member | corrected member |
|---|---|---|---|---|---|---|
| src/guise/style/style_attr.rs:327-348 | the grid-line arms of `apply` call `set_start` / `set_span` / `set_end` on `computed.style.grid_row` (or `grid_column`) and discard the returned copy, because those setters are by-value builders, as their chained use at src/guise/style/style_attr.rs:895-898 shows; the computed style is left unchanged | `GridRowStart(3)` applied to a style whose row start is not 3: afterwards the row start is still not 3 | store the new line: `grid_row = grid_row.set_start(v)` | not executed | `StyleAttrs.GridRowStartDiscardedAsWritten` (on `StyleAttrs.ApplyAsWritten`) | `StyleAttrs.GridRowStartSetsStart` (on `StyleAttrs.Apply`) |
