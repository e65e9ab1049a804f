/**
 * The value grammars of string style attributes: lengths (`auto`, or a number with an optional
 * unit), the CSS box shorthand of one to four lengths, grid placements (`a/b`, `a/span b`) and
 * scalar integers, together with the serialisers that write lengths and rects back as text.
 */
module StyleValues {
  import opened Wrappers
  import opened Ui
  import opened Lexical

  /** The two ways an attribute value is rejected. */
  datatype GuiseError = UnknownAttributeValue(value: string) | InvalidAttributeValue(value: string)

  // ---------------------------------------------------------------------------------------
  // Lengths

  /** The length a numeral takes with a unit suffix; no suffix means pixels. */
  function UnitVal(unit: string, n: Numeral): Option<Val> {
    match unit
    case "" => Some(Px(n))
    case "px" => Some(Px(n))
    case "%" => Some(Percent(n))
    case "vw" => Some(Vw(n))
    case "vh" => Some(Vh(n))
    case "vmin" => Some(VMin(n))
    case "vmax" => Some(VMax(n))
    case _ => None
  }

  /** Length of the leading run of `[\-\d\.]`: the numeral group of the length pattern. */
  function NumeralLen(s: string): (n: nat)
    ensures n <= |s|
  {
    PrefixLen(s, IsNumeralChar)
  }

  /**
   * The length grammar does not panic: a text that matches the length pattern has a numeral
   * that `f32::from_str` accepts. (The pattern admits runs such as `1.1.1`, whose conversion
   * is unwrapped and panics.)
   */
  predicate ValWontPanic(s: string) {
    var n := NumeralLen(s);
    s == "auto" || n == 0 || UnitVal(s[n..], "").None? || WellFormedNumeral(s[..n])
  }

  /** `parse_val`: `auto`, or a numeral followed by nothing or by one of the six units. */
  function ParseVal(s: string): (r: Result<Val, GuiseError>)
    requires ValWontPanic(s)
    ensures r.Err? ==> r.error == InvalidAttributeValue(s)
    ensures r.Ok? && !r.value.Auto? ==> WellFormedNumeral(r.value.n)
  {
    if s == "auto" then Ok(Val.Auto)
    else
      var n := NumeralLen(s);
      if n == 0 then Err(InvalidAttributeValue(s))
      else match UnitVal(s[n..], s[..n])
        case Some(v) => Ok(v)
        case None => Err(InvalidAttributeValue(s))
  }

  /** A length whose number is a numeral `f32::from_str` reads (what `val_to_str` of a finite `f32` writes). */
  predicate WellFormedVal(v: Val) {
    v.Auto? || WellFormedNumeral(v.n)
  }

  /** `val_to_str`: `auto`, or the number's text followed by its unit. */
  function ValToStr(v: Val): string {
    match v
    case Auto => "auto"
    case Px(n) => n + "px"
    case Percent(n) => n + "%"
    case Vw(n) => n + "vw"
    case Vh(n) => n + "vh"
    case VMin(n) => n + "vmin"
    case VMax(n) => n + "vmax"
  }

  /** The unit `val_to_str` writes after the numeral. */
  function UnitOf(v: Val): string
    requires !v.Auto?
  {
    match v
    case Px(_) => "px"
    case Percent(_) => "%"
    case Vw(_) => "vw"
    case Vh(_) => "vh"
    case VMin(_) => "vmin"
    case VMax(_) => "vmax"
  }

  /** What `val_to_str` writes is a single word: not empty, no whitespace. */
  lemma ValTextIsWord(v: Val)
    requires WellFormedVal(v)
    ensures ValToStr(v) != [] && forall j :: 0 <= j < |ValToStr(v)| ==> !IsWhitespace(ValToStr(v)[j])
  {
    if !v.Auto? {
      WellFormedNumeralChars(v.n);
      assert ValToStr(v) == v.n + UnitOf(v);
      forall j | 0 <= j < |ValToStr(v)| ensures !IsWhitespace(ValToStr(v)[j]) {
        if j < |v.n| {
          assert ValToStr(v)[j] == v.n[j];
        }
      }
    }
  }

  /** A numeral followed by text that starts outside `[\-\d\.]` splits after the numeral. */
  lemma NumeralThenSuffix(n: Numeral, u: string)
    requires WellFormedNumeral(n)
    requires u == [] || !IsNumeralChar(u[0])
    ensures NumeralLen(n + u) == |n| && (n + u)[..|n|] == n && (n + u)[|n|..] == u
    ensures n + u != "auto"
  {
    WellFormedNumeralChars(n);
    PrefixLenOfConcat(n, u, IsNumeralChar);
    assert (n + u)[0] == n[0];
  }

  /** Reading back what `val_to_str` wrote gives the same length. */
  lemma {:induction false} ValRoundTrip(v: Val)
    requires WellFormedVal(v)
    ensures ValWontPanic(ValToStr(v)) && ParseVal(ValToStr(v)) == Ok(v)
  {
    if !v.Auto? {
      NumeralThenSuffix(v.n, UnitOf(v));
      assert ValToStr(v) == v.n + UnitOf(v);
    }
  }

  /** A bare numeral is a length in pixels. */
  lemma UnitlessIsPixels(n: Numeral)
    requires WellFormedNumeral(n)
    ensures ValWontPanic(n) && ParseVal(n) == Ok(Px(n))
  {
    NumeralThenSuffix(n, []);
    assert n + [] == n;
  }

  /** A numeral followed by anything but a unit is rejected, naming the whole text. */
  lemma TrailingTextRejected(n: Numeral, u: string)
    requires WellFormedNumeral(n)
    requires u != [] && !IsNumeralChar(u[0]) && UnitVal(u, n).None?
    ensures ValWontPanic(n + u) && ParseVal(n + u) == Err(InvalidAttributeValue(n + u))
  {
    NumeralThenSuffix(n, u);
    assert UnitVal(u, "").None?;
  }

  /** A text that does not start with a numeral and is not `auto` is rejected. */
  lemma NonNumeralRejected(s: string)
    requires s != "auto" && (s == [] || !IsNumeralChar(s[0]))
    ensures ValWontPanic(s) && ParseVal(s) == Err(InvalidAttributeValue(s))
  {
  }

  /** The accepted examples of the unit tests of `parse_val`, with numbers kept as numerals. */
  lemma ParseValAcceptsExamples()
    ensures ValWontPanic("auto") && ParseVal("auto") == Ok(Val.Auto)
    ensures ValWontPanic("1") && ParseVal("1") == Ok(Px("1"))
    ensures ValWontPanic("1px") && ParseVal("1px") == Ok(Px("1"))
    ensures ValWontPanic("1vw") && ParseVal("1vw") == Ok(Vw("1"))
    ensures ValWontPanic("1vh") && ParseVal("1vh") == Ok(Vh("1"))
    ensures ValWontPanic("1.1px") && ParseVal("1.1px") == Ok(Px("1.1"))
  {
    assert WellFormedNumeral("1") by { assert IsDigit("1"[0]); }
    assert WellFormedNumeral("1.1") by { assert IsDigit("1.1"[0]); }
    ValRoundTrip(Val.Auto);
    UnitlessIsPixels("1");
    ValRoundTrip(Px("1"));
    assert ValToStr(Px("1")) == "1px";
    ValRoundTrip(Vw("1"));
    assert ValToStr(Vw("1")) == "1vw";
    ValRoundTrip(Px("1.1"));
    assert ValToStr(Px("1.1")) == "1.1px";
    ValRoundTrip(Vh("1"));
    assert ValToStr(Vh("1")) == "1vh";
  }

  /** A number followed by text that is not a unit is rejected (from the unit tests of `parse_val`). */
  lemma ParseValRejectsBadUnit()
    ensures ValWontPanic("1.1bad") && ParseVal("1.1bad").Err?
  {
    assert WellFormedNumeral("1.1") by { assert IsDigit("1.1"[0]); }
    TrailingTextRejected("1.1", "bad");
    assert "1.1" + "bad" == "1.1bad";
  }

  /** A run with two points followed by a non-unit is rejected before any conversion (from the unit tests of `parse_val`). */
  lemma ParseValRejectsTwoPoints()
    ensures ValWontPanic("1.1.1bad") && ParseVal("1.1.1bad").Err?
  {
    var t := "1.1.1bad";
    assert NumeralLen(t) == 5 by {
      PrefixLenOfConcat("1.1.1", "bad", IsNumeralChar);
      assert "1.1.1" + "bad" == t;
    }
    assert t[5..] == "bad";
    assert UnitVal("bad", "").None? && UnitVal("bad", "1.1.1").None?;
  }

  // ---------------------------------------------------------------------------------------
  // Scalar integers

  const I16Min := -0x8000
  const I16Max := 0x7FFF
  const U16Max := 0xFFFF

  /** `parse_i16`: an `i16` in decimal, or an error naming the text. */
  function ParseI16(s: string): (r: Result<I16, GuiseError>)
    ensures r.Err? ==> r.error == InvalidAttributeValue(s)
  {
    match ParseInteger(s, true, I16Min, I16Max)
    case Some(v) => Ok(v)
    case None => Err(InvalidAttributeValue(s))
  }

  /** `parse_u16`: a `u16` in decimal (no minus sign), or an error naming the text. */
  function ParseU16(s: string): (r: Result<U16, GuiseError>)
    ensures r.Err? ==> r.error == InvalidAttributeValue(s)
  {
    match ParseInteger(s, false, 0, U16Max)
    case Some(v) => Ok(v)
    case None => Err(InvalidAttributeValue(s))
  }

  /** `parse_i16` reads back what `i16::to_string` writes. */
  lemma I16RoundTrip(v: I16)
    ensures ParseI16(IntegerText(v)) == Ok(v)
  {
    IntegerRoundTrip(v, true, I16Min, I16Max);
  }

  /** `parse_u16` reads back what `u16::to_string` writes. */
  lemma U16RoundTrip(v: U16)
    ensures ParseU16(IntegerText(v)) == Ok(v)
  {
    IntegerRoundTrip(v, false, 0, U16Max);
  }

  // ---------------------------------------------------------------------------------------
  // Grid placements

  /** Characters of the regex class `[\d\.]` of the grid pattern. */
  predicate IsDigitOrPoint(c: char) {
    IsDigit(c) || c == '.'
  }

  /** The two shapes of grid text: `<start> / <end>` and `<start> / span <span>`, as the matched runs. */
  datatype GridForm = StartEnd(start: string, end: string) | StartSpan(start: string, span: string)

  /** A whole text is one non-empty run of `[\d\.]`. */
  predicate IsRun(t: string) {
    t != [] && forall i :: 0 <= i < |t| ==> IsDigitOrPoint(t[i])
  }

  /** The text after `span`, optional whitespace skipped, when it is one run. */
  function SpanRun(b: string): Option<string> {
    if |b| >= 4 && b[..4] == "span" then
      var c := b[4..][PrefixLen(b[4..], IsWhitespace)..];
      if IsRun(c) then Some(c) else None
    else None
  }

  /**
   * Which of the two grid patterns the text matches (the first is tried first): a run, optional
   * whitespace, a slash, optional whitespace, then either a run or `span`, optional whitespace
   * and a run, up to the end of the text.
   */
  function MatchGrid(s: string): (m: Option<GridForm>)
    ensures m.Some? ==> IsRun(m.value.start) && (m.value.StartEnd? ==> IsRun(m.value.end))
    ensures m.Some? && m.value.StartSpan? ==> IsRun(m.value.span)
  {
    var a := PrefixLen(s, IsDigitOrPoint);
    var t := s[a..];
    var w := PrefixLen(t, IsWhitespace);
    if a == 0 || w == |t| || t[w] != '/' then None
    else
      var u := t[w + 1..];
      var b := u[PrefixLen(u, IsWhitespace)..];
      if IsRun(b) then Some(StartEnd(s[..a], b))
      else match SpanRun(b)
        case Some(c) => Some(StartSpan(s[..a], c))
        case None => None
  }

  /** The grid pattern's runs convert: each `unwrap` of the integer conversions succeeds. */
  predicate GridWontPanic(s: string) {
    match MatchGrid(s)
    case None => true
    case Some(StartEnd(a, b)) => ParseI16(a).Ok? && ParseI16(b).Ok?
    case Some(StartSpan(a, c)) => ParseI16(a).Ok? && ParseU16(c).Ok?
  }

  /** A run of digits and points never carries a minus sign, so its `i16` value is not negative. */
  lemma RunIsNonNegative(a: string)
    requires IsRun(a) && ParseI16(a).Ok?
    ensures ParseI16(a).value >= 0
  {
    assert IsDigitOrPoint(a[0]);
  }

  /**
   * `parse_grid_placement`: `a/b` gives start `a` and end `b` (span left at its default of one);
   * `a/span b` gives start `a` and span `b` (end left automatic). Anything else is rejected.
   */
  function ParseGridPlacement(s: string): (r: Result<GridPlacement, GuiseError>)
    requires GridWontPanic(s)
    ensures r.Err? ==> r.error == InvalidAttributeValue(s)
    ensures r.Ok? ==> r.value.start.Some? && r.value.start.value >= 0
    ensures r.Ok? ==> (r.value.span == Some(1) && r.value.end.Some? && r.value.end.value >= 0) ||
                      (r.value.span.Some? && r.value.end.None?)
  {
    match MatchGrid(s)
    case None => Err(InvalidAttributeValue(s))
    case Some(StartEnd(a, b)) =>
      RunIsNonNegative(a);
      RunIsNonNegative(b);
      Ok(DefaultGridPlacement.SetStart(ParseI16(a).value).SetEnd(ParseI16(b).value))
    case Some(StartSpan(a, c)) =>
      RunIsNonNegative(a);
      Ok(DefaultGridPlacement.SetStart(ParseI16(a).value).SetSpan(ParseU16(c).value))
  }

  /** The decimal text of a non-negative line number is one run of digits. */
  lemma DecimalIsRun(n: nat)
    ensures IsRun(DecimalText(n)) && IntegerText(n) == DecimalText(n)
  {
  }

  /** A run followed by a slash splits at the slash. */
  lemma RunThenSlash(a: string, u: string)
    requires IsRun(a)
    ensures var s := a + "/" + u;
      PrefixLen(s, IsDigitOrPoint) == |a| && s[..|a|] == a && s[|a|..] == "/" + u
  {
    var s := a + "/" + u;
    PrefixLenOfConcat(a, "/" + u, IsDigitOrPoint);
    assert s == a + ("/" + u);
  }

  /** After a slash with no whitespace, the rest of the text is what follows the slash. */
  lemma SlashThen(u: string)
    requires u != [] && (IsDigitOrPoint(u[0]) || u[0] == 's')
    ensures PrefixLen("/" + u, IsWhitespace) == 0 && ("/" + u)[0] == '/' && ("/" + u)[1..] == u
    ensures PrefixLen(u, IsWhitespace) == 0
  {
  }

  /** `span`, one space and a number's decimal text: the span run is that text. */
  lemma SpanRunOfDecimal(n: nat)
    ensures SpanRun("span " + DecimalText(n)) == Some(DecimalText(n))
  {
    var b := "span " + DecimalText(n);
    assert b[..4] == "span" && b[4..] == " " + DecimalText(n);
    PrefixLenOfConcat(" ", DecimalText(n), IsWhitespace);
    assert (" " + DecimalText(n))[1..] == DecimalText(n);
  }

  /** `<start>/<end>` with two non-negative line numbers places from `start` to `end`. */
  lemma GridStartEndForm(x: I16, y: I16)
    requires x >= 0 && y >= 0
    ensures GridWontPanic(IntegerText(x) + "/" + IntegerText(y))
    ensures ParseGridPlacement(IntegerText(x) + "/" + IntegerText(y)) == Ok(GridPlacement(Some(x), Some(1), Some(y)))
  {
    DecimalIsRun(x);
    DecimalIsRun(y);
    RunThenSlash(IntegerText(x), IntegerText(y));
    SlashThen(IntegerText(y));
    assert MatchGrid(IntegerText(x) + "/" + IntegerText(y)) == Some(StartEnd(IntegerText(x), IntegerText(y)));
    I16RoundTrip(x);
    I16RoundTrip(y);
  }

  /** `<start>/span <n>` with a non-negative start places from `start` over `n` tracks. */
  lemma GridStartSpanForm(x: I16, n: U16)
    requires x >= 0
    ensures GridWontPanic(IntegerText(x) + "/" + ("span " + IntegerText(n)))
    ensures ParseGridPlacement(IntegerText(x) + "/" + ("span " + IntegerText(n))) == Ok(GridPlacement(Some(x), Some(n), None))
  {
    var b := "span " + IntegerText(n);
    DecimalIsRun(x);
    DecimalIsRun(n);
    RunThenSlash(IntegerText(x), b);
    SlashThen(b);
    assert !IsRun(b) by { assert !IsDigitOrPoint(b[0]); }
    SpanRunOfDecimal(n);
    assert MatchGrid(IntegerText(x) + "/" + b) == Some(StartSpan(IntegerText(x), IntegerText(n)));
    I16RoundTrip(x);
    U16RoundTrip(n);
  }

  /** A text made only of whitespace, as the pattern's `\s*` matches it. */
  predicate IsBlank(w: string) {
    forall i :: 0 <= i < |w| ==> IsWhitespace(w[i])
  }

  /** A run, blank text and a slash: the start run ends before the blank, the slash follows it. */
  lemma RunBlankSlash(a: string, w: string, r: string)
    requires IsRun(a) && IsBlank(w)
    ensures var s := a + w + "/" + r; var t := s[PrefixLen(s, IsDigitOrPoint)..];
      && PrefixLen(s, IsDigitOrPoint) == |a| && s[..|a|] == a
      && PrefixLen(t, IsWhitespace) == |w| && |w| < |t| && t[|w|] == '/' && t[|w| + 1..] == r
  {
    var s := a + w + "/" + r;
    var t := w + "/" + r;
    assert s == a + t;
    assert t[0] == '/' || IsWhitespace(t[0]);
    PrefixLenOfConcat(a, t, IsDigitOrPoint);
    assert s[|a|..] == t;
    assert t == w + ("/" + r);
    PrefixLenOfConcat(w, "/" + r, IsWhitespace);
  }

  /** Blank text before a character that is not whitespace is skipped exactly. */
  lemma SkipBlank(w: string, b: string)
    requires IsBlank(w) && b != [] && !IsWhitespace(b[0])
    ensures (w + b)[PrefixLen(w + b, IsWhitespace)..] == b
  {
    PrefixLenOfConcat(w, b, IsWhitespace);
  }

  /**
   * The first grid pattern allows any whitespace around the slash, and its runs are taken as
   * written (leading zeros and points included): `a w1 / w2 b` matches with start `a`, end `b`.
   */
  lemma MatchGridStartEndSpaced(a: string, w1: string, w2: string, b: string)
    requires IsRun(a) && IsRun(b) && IsBlank(w1) && IsBlank(w2)
    ensures MatchGrid(a + w1 + "/" + w2 + b) == Some(StartEnd(a, b))
  {
    assert a + w1 + "/" + w2 + b == a + w1 + "/" + (w2 + b);
    RunBlankSlash(a, w1, w2 + b);
    assert IsDigitOrPoint(b[0]);
    SkipBlank(w2, b);
  }

  /** `span`, blank text and a run: the span run is that run. */
  lemma SpanRunSpaced(w: string, c: string)
    requires IsBlank(w) && IsRun(c)
    ensures SpanRun("span" + w + c) == Some(c)
  {
    var b := "span" + w + c;
    assert b[..4] == "span" && b[4..] == w + c;
    assert IsDigitOrPoint(c[0]);
    SkipBlank(w, c);
  }

  /**
   * The second grid pattern allows any whitespace around the slash and after `span`:
   * `a w1 / w2 span w3 c` matches with start `a` and span `c`.
   */
  lemma MatchGridStartSpanSpaced(a: string, w1: string, w2: string, w3: string, c: string)
    requires IsRun(a) && IsRun(c) && IsBlank(w1) && IsBlank(w2) && IsBlank(w3)
    ensures MatchGrid(a + w1 + "/" + w2 + "span" + w3 + c) == Some(StartSpan(a, c))
  {
    var b := "span" + w3 + c;
    assert a + w1 + "/" + w2 + "span" + w3 + c == a + w1 + "/" + (w2 + b);
    RunBlankSlash(a, w1, w2 + b);
    SkipBlank(w2, b);
    assert !IsRun(b) by { assert !IsDigitOrPoint(b[0]); }
    SpanRunSpaced(w3, c);
  }

  /** A start line written with a minus sign does not match the grid patterns. */
  lemma GridNegativeStartRejected(s: string)
    requires s != [] && s[0] == '-'
    ensures GridWontPanic(s) && ParseGridPlacement(s) == Err(InvalidAttributeValue(s))
  {
  }

  // ---------------------------------------------------------------------------------------
  // The box shorthand

  /** Word `k` is a length: the length grammar neither panics on it nor rejects it. */
  predicate WordIsLength(ws: seq<string>, k: nat) {
    k < |ws| && ValWontPanic(ws[k]) && ParseVal(ws[k]).Ok?
  }

  /** `parse_uirect` does not panic on `s`: each of the first four words it reaches converts or is rejected cleanly. */
  predicate UiRectWontPanic(s: string) {
    var ws := Words(s);
    && (|ws| > 0 ==> ValWontPanic(ws[0]))
    && (|ws| > 1 && WordIsLength(ws, 0) ==> ValWontPanic(ws[1]))
    && (|ws| > 2 && WordIsLength(ws, 0) && WordIsLength(ws, 1) ==> ValWontPanic(ws[2]))
    && (|ws| > 3 && WordIsLength(ws, 0) && WordIsLength(ws, 1) && WordIsLength(ws, 2) ==> ValWontPanic(ws[3]))
  }

  /**
   * The CSS box shorthand (section 8.3 of CSS 2.1), values listed top, right, bottom, left:
   * a missing right copies top, a missing bottom copies top, a missing left copies right.
   */
  function SidesToRect(vs: seq<Val>): UiRect
    requires 1 <= |vs| <= 4
  {
    var top := vs[0];
    var right := if |vs| >= 2 then vs[1] else top;
    var bottom := if |vs| >= 3 then vs[2] else top;
    var left := if |vs| == 4 then vs[3] else right;
    UiRect(left, right, top, bottom)
  }

  /** The shorthand spelled out per number of values. */
  lemma SidesToRectCases(vs: seq<Val>)
    requires 1 <= |vs| <= 4
    ensures |vs| == 1 ==> SidesToRect(vs) == UiRect(vs[0], vs[0], vs[0], vs[0])
    ensures |vs| == 2 ==> SidesToRect(vs) == UiRect(vs[1], vs[1], vs[0], vs[0])
    ensures |vs| == 3 ==> SidesToRect(vs) == UiRect(vs[1], vs[1], vs[0], vs[2])
    ensures |vs| == 4 ==> SidesToRect(vs) == UiRect(vs[3], vs[1], vs[0], vs[2])
  {
  }

  /**
   * What `parse_uirect` computes, word by word: the top word, then right, bottom and left, each
   * taken from the next word when there is one and from the side it defaults to otherwise; the
   * first word that is not a length gives its error; no words, or a fifth word, is an error
   * naming the whole text.
   */
  function BoxShorthand(s: string): (r: Result<UiRect, GuiseError>)
    requires UiRectWontPanic(s)
  {
    var ws := Words(s);
    if |ws| == 0 then Err(InvalidAttributeValue(s))
    else match ParseVal(ws[0])
      case Err(e) => Err(e)
      case Ok(top) =>
        var right := if |ws| > 1 then ParseVal(ws[1]) else Ok(top);
        if right.Err? then Err(right.error)
        else
          var bottom := if |ws| > 2 then ParseVal(ws[2]) else Ok(top);
          if bottom.Err? then Err(bottom.error)
          else
            var left := if |ws| > 3 then ParseVal(ws[3]) else Ok(right.value);
            if left.Err? then Err(left.error)
            else if |ws| > 4 then Err(InvalidAttributeValue(s))
            else Ok(UiRect(left.value, right.value, top, bottom.value))
  }

  /**
   * `parse_uirect`: pulls up to four words from the whitespace split, defaulting each missing
   * side from the one the shorthand names, then insists that no word is left.
   */
  method ParseUiRect(s: string) returns (r: Result<UiRect, GuiseError>)
    requires UiRectWontPanic(s)
    ensures r == BoxShorthand(s)
  {
    var rect := UiRect(Val.Auto, Val.Auto, Val.Auto, Val.Auto);
    var sides := Words(s);
    var next := 0;
    if next < |sides| {
      var top := ParseVal(sides[next]);
      next := next + 1;
      if top.Err? {
        return Err(top.error);
      }
      rect := rect.(top := top.value);
      if next < |sides| {
        var right := ParseVal(sides[next]);
        next := next + 1;
        if right.Err? {
          return Err(right.error);
        }
        rect := rect.(right := right.value);
      } else {
        rect := rect.(right := rect.top);
      }
      if next < |sides| {
        var bottom := ParseVal(sides[next]);
        next := next + 1;
        if bottom.Err? {
          return Err(bottom.error);
        }
        rect := rect.(bottom := bottom.value);
      } else {
        rect := rect.(bottom := rect.top);
      }
      if next < |sides| {
        var left := ParseVal(sides[next]);
        next := next + 1;
        if left.Err? {
          return Err(left.error);
        }
        rect := rect.(left := left.value);
      } else {
        rect := rect.(left := rect.right);
      }
      if next < |sides| {
        r := Err(InvalidAttributeValue(s));
      } else {
        r := Ok(rect);
      }
    } else {
      r := Err(InvalidAttributeValue(s));
    }
  }

  /** One to four lengths give the rect the CSS shorthand prescribes. */
  lemma BoxShorthandFollowsCss(s: string, vs: seq<Val>)
    requires 1 <= |Words(s)| <= 4 && |vs| == |Words(s)|
    requires forall k :: 0 <= k < |vs| ==> ValWontPanic(Words(s)[k]) && ParseVal(Words(s)[k]) == Ok(vs[k])
    ensures UiRectWontPanic(s) && BoxShorthand(s) == Ok(SidesToRect(vs))
  {
  }

  /** Empty or all-whitespace text is rejected, naming the text. */
  lemma BlankRectRejected(s: string)
    requires forall i :: 0 <= i < |s| ==> IsWhitespace(s[i])
    ensures UiRectWontPanic(s) && BoxShorthand(s) == Err(InvalidAttributeValue(s))
  {
    WordsEmptyIffBlank(s);
  }

  /** Five or more words are rejected, naming the text, even when the first four are lengths. */
  lemma TooManySidesRejected(s: string)
    requires |Words(s)| > 4
    requires forall k :: 0 <= k < 4 ==> WordIsLength(Words(s), k)
    ensures UiRectWontPanic(s) && BoxShorthand(s) == Err(InvalidAttributeValue(s))
  {
    assert WordIsLength(Words(s), 0) && WordIsLength(Words(s), 1);
    assert WordIsLength(Words(s), 2) && WordIsLength(Words(s), 3);
  }

  /** The first of the first four words that is not a length decides the error. */
  lemma FirstBadSideRejected(s: string, k: nat)
    requires k < 4 && k < |Words(s)|
    requires forall j :: 0 <= j < k ==> WordIsLength(Words(s), j)
    requires ValWontPanic(Words(s)[k]) && ParseVal(Words(s)[k]).Err?
    ensures UiRectWontPanic(s) && BoxShorthand(s) == Err(InvalidAttributeValue(Words(s)[k]))
  {
    if k > 0 { assert WordIsLength(Words(s), 0); }
    if k > 1 { assert WordIsLength(Words(s), 1); }
    if k > 2 { assert WordIsLength(Words(s), 2); }
  }

  /** `uirect_to_str`: the four sides in CSS order top, right, bottom, left, separated by spaces. */
  function UiRectToStr(r: UiRect): string {
    ValToStr(r.top) + " " + (ValToStr(r.right) + " " + (ValToStr(r.bottom) + " " + ValToStr(r.left)))
  }

  /** A non-empty text without whitespace. */
  predicate IsWord(w: string) {
    w != [] && forall j :: 0 <= j < |w| ==> !IsWhitespace(w[j])
  }

  /** Two words joined by a space split back into those two words. */
  lemma TwoWords(c: string, d: string)
    requires IsWord(c) && IsWord(d)
    ensures Words(c + " " + d) == [c, d]
  {
    WordsOfWord(d);
    WordsOfSeparated(c, ' ', d);
  }

  /** Three words joined by spaces split back into those three words. */
  lemma ThreeWords(b: string, c: string, d: string)
    requires IsWord(b) && IsWord(c) && IsWord(d)
    ensures Words(b + " " + (c + " " + d)) == [b, c, d]
  {
    TwoWords(c, d);
    WordsOfSeparated(b, ' ', c + " " + d);
  }

  /** Four words joined by single spaces split back into those four words. */
  lemma FourWords(a: string, b: string, c: string, d: string)
    requires IsWord(a) && IsWord(b) && IsWord(c) && IsWord(d)
    ensures Words(a + " " + (b + " " + (c + " " + d))) == [a, b, c, d]
  {
    ThreeWords(b, c, d);
    WordsOfSeparated(a, ' ', b + " " + (c + " " + d));
  }

  /** The words of `uirect_to_str`'s text are the four written sides. */
  lemma UiRectWords(r: UiRect)
    requires WellFormedVal(r.top) && WellFormedVal(r.right) && WellFormedVal(r.bottom) && WellFormedVal(r.left)
    ensures Words(UiRectToStr(r)) == [ValToStr(r.top), ValToStr(r.right), ValToStr(r.bottom), ValToStr(r.left)]
  {
    ValTextIsWord(r.top);
    ValTextIsWord(r.right);
    ValTextIsWord(r.bottom);
    ValTextIsWord(r.left);
    FourWords(ValToStr(r.top), ValToStr(r.right), ValToStr(r.bottom), ValToStr(r.left));
  }

  /** Reading back what `uirect_to_str` wrote gives the same rect. */
  lemma UiRectRoundTrip(r: UiRect)
    requires WellFormedVal(r.top) && WellFormedVal(r.right) && WellFormedVal(r.bottom) && WellFormedVal(r.left)
    ensures UiRectWontPanic(UiRectToStr(r)) && BoxShorthand(UiRectToStr(r)) == Ok(r)
  {
    UiRectWords(r);
    ValRoundTrip(r.top);
    ValRoundTrip(r.right);
    ValRoundTrip(r.bottom);
    ValRoundTrip(r.left);
    BoxShorthandFollowsCss(UiRectToStr(r), [r.top, r.right, r.bottom, r.left]);
  }
}
