/**
 * Character classes, scanners and decimal integers used by the attribute-string parsers:
 * the parts of Rust's `str::split_whitespace`, regex classes `\s`, `\d` and `iN::from_str`
 * that the style grammar depends on.
 */
module Lexical {
  import opened Wrappers

  /** Unicode White_Space: the characters `char::is_whitespace`, `split_whitespace` and the regex class `\s` accept. */
  predicate IsWhitespace(c: char) {
    || c == ' '
    || ('\t' <= c <= '\r')
    || c == '\U{85}' || c == '\U{A0}' || c == '\U{1680}'
    || ('\U{2000}' <= c <= '\U{200A}')
    || c == '\U{2028}' || c == '\U{2029}' || c == '\U{202F}' || c == '\U{205F}' || c == '\U{3000}'
  }

  predicate NotWhitespace(c: char) {
    !IsWhitespace(c)
  }

  predicate IsDigit(c: char) {
    '0' <= c <= '9'
  }

  predicate AllDigits(s: string) {
    forall i :: 0 <= i < |s| ==> IsDigit(s[i])
  }

  /** Length of the longest prefix of `s` whose characters all satisfy `p`. */
  function PrefixLen(s: string, p: char -> bool): (n: nat)
    ensures n <= |s|
    ensures forall i :: 0 <= i < n ==> p(s[i])
    ensures n < |s| ==> !p(s[n])
  {
    if s == [] || !p(s[0]) then 0 else 1 + PrefixLen(s[1..], p)
  }

  /** The maximal prefix is determined by where the first failing character stands. */
  lemma {:induction false} PrefixLenOfConcat(t: string, u: string, p: char -> bool)
    requires forall i :: 0 <= i < |t| ==> p(t[i])
    requires u == [] || !p(u[0])
    ensures PrefixLen(t + u, p) == |t|
  {
    if t != [] {
      assert (t + u)[1..] == t[1..] + u;
      PrefixLenOfConcat(t[1..], u, p);
    } else {
      assert t + u == u;
    }
  }

  /** The whitespace-separated words of `s`, in order, as `str::split_whitespace` yields them. */
  function Words(s: string): (ws: seq<string>)
    ensures forall k :: 0 <= k < |ws| ==> ws[k] != [] && forall j :: 0 <= j < |ws[k]| ==> !IsWhitespace(ws[k][j])
    decreases |s|
  {
    if s == [] then []
    else if IsWhitespace(s[0]) then Words(s[1..])
    else
      var n := PrefixLen(s, NotWhitespace);
      [s[..n]] + Words(s[n..])
  }

  /** A text has no words exactly when every character of it is whitespace (the empty text included). */
  lemma {:induction false} WordsEmptyIffBlank(s: string)
    ensures Words(s) == [] <==> forall i :: 0 <= i < |s| ==> IsWhitespace(s[i])
    decreases |s|
  {
    if s != [] {
      WordsEmptyIffBlank(s[1..]);
      if IsWhitespace(s[0]) {
        forall i | 0 < i < |s| ensures s[i] == s[1..][i - 1] {}
      }
    }
  }

  /** A word followed by any whitespace character and more text splits off as the first word. */
  lemma WordsOfSeparated(w: string, c: char, rest: string)
    requires w != [] && forall j :: 0 <= j < |w| ==> !IsWhitespace(w[j])
    requires IsWhitespace(c)
    ensures Words(w + [c] + rest) == [w] + Words(rest)
  {
    var s := w + [c] + rest;
    PrefixLenOfConcat(w, [c] + rest, NotWhitespace);
    assert w + [c] + rest == w + ([c] + rest);
    assert s[..|w|] == w;
    assert s[|w|..] == [c] + rest;
    assert ([c] + rest)[1..] == rest;
  }

  /** Whitespace before the first word is skipped, whatever whitespace character it is. */
  lemma WordsSkipWhitespace(c: char, s: string)
    requires IsWhitespace(c)
    ensures Words([c] + s) == Words(s)
  {
    assert ([c] + s)[1..] == s;
  }

  /** A single word is its own split. */
  lemma WordsOfWord(w: string)
    requires w != [] && forall j :: 0 <= j < |w| ==> !IsWhitespace(w[j])
    ensures Words(w) == [w]
  {
    PrefixLenOfConcat(w, [], NotWhitespace);
    assert w + [] == w;
    assert w[|w|..] == [];
  }

  /** The value of a non-empty run of ASCII digits, most significant first. */
  function DecimalValue(d: string): nat
    requires AllDigits(d)
  {
    if d == [] then 0 else 10 * DecimalValue(d[..|d| - 1]) + (d[|d| - 1] as int - '0' as int)
  }

  function DigitChar(k: nat): (c: char)
    requires k < 10
    ensures IsDigit(c) && c as int - '0' as int == k
  {
    ('0' as int + k) as char
  }

  /** The decimal text of `n`, as `to_string` writes a non-negative integer: no sign, no leading zeros. */
  function DecimalText(n: nat): (d: string)
    ensures d != [] && AllDigits(d)
  {
    if n < 10 then [DigitChar(n)] else DecimalText(n / 10) + [DigitChar(n % 10)]
  }

  lemma {:induction false} DecimalRoundTrip(n: nat)
    ensures DecimalValue(DecimalText(n)) == n
  {
    var d := DecimalText(n);
    if n >= 10 {
      DecimalRoundTrip(n / 10);
      assert d[..|d| - 1] == DecimalText(n / 10);
    }
  }

  /**
   * Rust's `from_str` for a decimal integer type whose values are `lo..=hi`: one optional sign
   * ('-' only when `signed`), then one or more ASCII digits, and the value must be in range.
   */
  function ParseInteger(s: string, signed: bool, lo: int, hi: int): (r: Option<int>)
    ensures r.Some? ==> lo <= r.value <= hi
  {
    if s == [] || ((s[0] == '+' || s[0] == '-') && |s| == 1) then None
    else
      var negative := signed && s[0] == '-';
      var digits := if s[0] == '+' || negative then s[1..] else s;
      if !AllDigits(digits) then None
      else
        var v: int := if negative then -(DecimalValue(digits) as int) else DecimalValue(digits);
        if lo <= v <= hi then Some(v) else None
  }

  /** `to_string` of an integer: a '-' for negative values, then the decimal text of the magnitude. */
  function IntegerText(v: int): (t: string)
    ensures t != []
  {
    if v < 0 then "-" + DecimalText(-v) else DecimalText(v)
  }

  /** Parsing what `to_string` wrote gives the value back, for every value of the integer type. */
  lemma IntegerRoundTrip(v: int, signed: bool, lo: int, hi: int)
    requires lo <= v <= hi
    requires v < 0 ==> signed
    ensures ParseInteger(IntegerText(v), signed, lo, hi) == Some(v)
  {
    var t := IntegerText(v);
    if v < 0 {
      DecimalRoundTrip(-v);
      assert t[1..] == DecimalText(-v);
    } else {
      DecimalRoundTrip(v);
    }
  }

  /**
   * What `from_str` accepts and the value it gives: a sign ('+', or '-' for a signed type, or
   * none) followed by one or more ASCII digits reads as the signed decimal value of the digits,
   * leading zeros included, when that value is in range, and is rejected otherwise.
   */
  lemma ParseIntegerValue(sign: string, digits: string, signed: bool, lo: int, hi: int)
    requires sign == "" || sign == "+" || (signed && sign == "-")
    requires digits != [] && AllDigits(digits)
    ensures var v := if sign == "-" then -(DecimalValue(digits) as int) else DecimalValue(digits) as int;
            ParseInteger(sign + digits, signed, lo, hi) == if lo <= v <= hi then Some(v) else None
  {
    if sign != "" {
      assert (sign + digits)[0] == sign[0];
      assert (sign + digits)[1..] == digits;
    } else {
      assert sign + digits == digits;
    }
  }

  /** Conversely, every accepted text is an optional sign followed by one or more ASCII digits. */
  lemma ParseIntegerSyntax(s: string, signed: bool, lo: int, hi: int)
    requires ParseInteger(s, signed, lo, hi).Some?
    ensures s != []
    ensures s[0] == '+' || (signed && s[0] == '-') || IsDigit(s[0])
    ensures |s| > 1 || IsDigit(s[0])
    ensures forall i :: 0 < i < |s| ==> IsDigit(s[i])
  {
    if s[0] == '+' || (signed && s[0] == '-') {
      forall i | 0 < i < |s| ensures IsDigit(s[i]) {
        assert s[i] == s[1..][i - 1];
      }
    }
  }

  /** A plus sign and leading zeros are accepted: "+7" and "007" both read as 7. */
  lemma ParseIntegerExamples()
    ensures ParseInteger("+7", true, -0x8000, 0x7FFF) == Some(7)
    ensures ParseInteger("007", false, 0, 0xFFFF) == Some(7)
    ensures ParseInteger("-7", false, 0, 0xFFFF) == None
  {
    ParseIntegerValue("+", "7", true, -0x8000, 0x7FFF);
    ParseIntegerValue("", "007", false, 0, 0xFFFF);
  }

  /** Characters of the regex class `[\-\d\.]` that precedes a length unit. */
  predicate IsNumeralChar(c: char) {
    c == '-' || c == '.' || IsDigit(c)
  }

  /**
   * The texts over '-', '.' and digits that `f32::from_str` accepts: an optional leading '-',
   * then digits with at most one '.', and at least one digit.
   */
  predicate WellFormedNumeral(t: string) {
    var body := if |t| > 0 && t[0] == '-' then t[1..] else t;
    && (forall i :: 0 <= i < |body| ==> IsDigit(body[i]) || body[i] == '.')
    && (forall i, j :: 0 <= i < j < |body| && body[i] == '.' ==> body[j] != '.')
    && (exists i :: 0 <= i < |body| && IsDigit(body[i]))
  }

  lemma WellFormedNumeralChars(t: string)
    requires WellFormedNumeral(t)
    ensures t != [] && forall i :: 0 <= i < |t| ==> IsNumeralChar(t[i])
  {
    var body := if |t| > 0 && t[0] == '-' then t[1..] else t;
    forall i | 0 < i < |t| && t[0] == '-' ensures IsNumeralChar(t[i]) {
      assert t[i] == body[i - 1];
    }
  }
}
