/**
 * The string operations of ECMAScript and of the browser that the chat
 * client relies on: `String.prototype.trim`, the text escaping done by
 * `cleanInput` (a text node serialized back to HTML), the UTF-16 code units
 * seen by `charCodeAt`, and the decimal rendering of an integral Number.
 */
module JsText {
  import opened Wrappers

  // ---------------------------------------------------------------------
  // String.prototype.trim
  // ---------------------------------------------------------------------

  /**
   * The code points `trim` strips: WhiteSpace (TAB, VT, FF, SP, NBSP,
   * ZWNBSP and the category Zs) and LineTerminator (LF, CR, LS, PS), as
   * in sections 12.2 and 12.3 of ECMA-262.
   */
  predicate IsTrimmable(c: char) {
    c == '\U{0009}' || c == '\U{000B}' || c == '\U{000C}' || c == ' ' ||
    c == '\U{00A0}' || c == '\U{FEFF}' ||
    c == '\U{000A}' || c == '\U{000D}' || c == '\U{2028}' || c == '\U{2029}' ||
    c == '\U{1680}' || ('\U{2000}' <= c <= '\U{200A}') ||
    c == '\U{202F}' || c == '\U{205F}' || c == '\U{3000}'
  }

  /** The first index at or after `i` that holds a character `trim` keeps, or `|s|`. */
  function SkipLeading(s: string, i: nat): (lo: nat)
    requires i <= |s|
    ensures i <= lo <= |s|
    ensures forall k :: i <= k < lo ==> IsTrimmable(s[k])
    ensures lo == |s| || !IsTrimmable(s[lo])
    decreases |s| - i
  {
    if i < |s| && IsTrimmable(s[i]) then SkipLeading(s, i + 1) else i
  }

  /** The end of the kept slice: `j` moved left past trimmable characters, but not below `lo`. */
  function SkipTrailing(s: string, lo: nat, j: nat): (hi: nat)
    requires lo <= j <= |s|
    ensures lo <= hi <= j
    ensures forall k :: hi <= k < j ==> IsTrimmable(s[k])
    ensures hi == lo || !IsTrimmable(s[hi - 1])
  {
    if j > lo && IsTrimmable(s[j - 1]) then SkipTrailing(s, lo, j - 1) else j
  }

  /** Where the slice that `trim` keeps starts. */
  function TrimStartIndex(s: string): nat {
    SkipLeading(s, 0)
  }

  /** Where the slice that `trim` keeps ends. */
  function TrimEndIndex(s: string): nat {
    SkipTrailing(s, TrimStartIndex(s), |s|)
  }

  /**
   * `String.prototype.trim`: the slice left once trimmable characters are
   * cut from both ends. Everything cut off is trimmable, and what is kept
   * neither starts nor ends with a trimmable character, so the slice is
   * the largest one without trimmable ends.
   */
  function Trim(s: string): (r: string)
    ensures TrimStartIndex(s) <= TrimEndIndex(s) <= |s|
    ensures r == s[TrimStartIndex(s)..TrimEndIndex(s)]
    ensures forall i :: 0 <= i < TrimStartIndex(s) ==> IsTrimmable(s[i])
    ensures forall i :: TrimEndIndex(s) <= i < |s| ==> IsTrimmable(s[i])
    ensures r == [] || (!IsTrimmable(r[0]) && !IsTrimmable(r[|r| - 1]))
  {
    var lo := SkipLeading(s, 0);
    var hi := SkipTrailing(s, lo, |s|);
    assert lo < hi ==> s[lo..hi][0] == s[lo] && s[lo..hi][hi - lo - 1] == s[hi - 1];
    s[lo..hi]
  }

  /** A name or message made only of white space trims to nothing, and only such a one. */
  lemma TrimEmptyIff(s: string)
    ensures Trim(s) == [] <==> forall i :: 0 <= i < |s| ==> IsTrimmable(s[i])
  {
    var lo := TrimStartIndex(s);
    if Trim(s) != [] {
      assert s[lo] == Trim(s)[0];
    }
  }

  /** Trimming twice is trimming once. */
  lemma TrimIdempotent(s: string)
    ensures Trim(Trim(s)) == Trim(s)
  {
    var t := Trim(s);
    assert TrimStartIndex(t) == 0;
    assert TrimEndIndex(t) == |t|;
  }

  // ---------------------------------------------------------------------
  // cleanInput: a text node serialized as HTML
  // ---------------------------------------------------------------------

  /**
   * How the HTML fragment serialization algorithm writes one character of
   * a text node ("escaping a string", not in attribute mode): `&`, U+00A0,
   * `<` and `>` become character references; quotes are kept.
   */
  function EscapeChar(c: char): (r: string)
    ensures 1 <= |r|
    ensures r[0] == '&' <==> c == '&' || c == '\U{00A0}' || c == '<' || c == '>'
  {
    if c == '&' then "&amp;"
    else if c == '\U{00A0}' then "&nbsp;"
    else if c == '<' then "&lt;"
    else if c == '>' then "&gt;"
    else [c]
  }

  /** A string in which no markup can start: no `<`, no `>`, no raw U+00A0. */
  predicate IsInert(s: string) {
    forall i :: 0 <= i < |s| ==> s[i] != '<' && s[i] != '>' && s[i] != '\U{00A0}'
  }

  /**
   * `cleanInput(input)`: `input` set as the text of a fresh element and
   * read back through `innerHTML`. The result carries no markup, and it is
   * empty exactly when the input is, so it is falsy exactly when the input is.
   */
  function CleanInput(s: string): (r: string)
    ensures |s| <= |r|
    ensures r == [] <==> s == []
    ensures IsInert(r)
  {
    if s == [] then [] else EscapeChar(s[0]) + CleanInput(s[1..])
  }

  /**
   * A decoder for exactly the four character references `CleanInput`
   * produces; every other character stands for itself. It is not a full
   * HTML parser (other references, CR/LF and NUL handling are not modelled):
   * it only serves as a left inverse of `CleanInput`.
   */
  function DecodeText(r: string): (s: string)
    ensures |s| <= |r|
    decreases |r|
  {
    if r == [] then []
    else if r[0] != '&' || |r| < 4 then [r[0]] + DecodeText(r[1..])
    else if r[1] == 'l' && r[2] == 't' && r[3] == ';' then "<" + DecodeText(r[4..])
    else if r[1] == 'g' && r[2] == 't' && r[3] == ';' then ">" + DecodeText(r[4..])
    else if |r| >= 5 && r[1] == 'a' && r[2] == 'm' && r[3] == 'p' && r[4] == ';' then
      "&" + DecodeText(r[5..])
    else if |r| >= 6 && r[1] == 'n' && r[2] == 'b' && r[3] == 's' && r[4] == 'p' && r[5] == ';' then
      "\U{00A0}" + DecodeText(r[6..])
    else [r[0]] + DecodeText(r[1..])
  }

  /** Reading one escaped character back gives that character. */
  lemma DecodeEscapeChar(c: char, rest: string)
    ensures DecodeText(EscapeChar(c) + rest) == [c] + DecodeText(rest)
  {
    var e := EscapeChar(c);
    var r := e + rest;
    assert r[|e|..] == rest;
    if |e| > 1 {
      assert r[0] == '&' && r[1] == e[1] && r[2] == e[2] && r[3] == e[3];
      if |e| >= 5 {
        assert r[4] == e[4];
      }
      if |e| == 6 {
        assert r[5] == e[5];
      }
    }
  }

  /**
   * `DecodeText` is a left inverse of `CleanInput`, so `cleanInput` loses
   * no information. (The client itself never decodes: it shows the escaped
   * text as it is.)
   */
  lemma {:induction false} CleanInputRoundTrip(s: string)
    ensures DecodeText(CleanInput(s)) == s
  {
    if s != [] {
      CleanInputRoundTrip(s[1..]);
      DecodeEscapeChar(s[0], CleanInput(s[1..]));
    }
  }

  /** `cleanInput` is injective: two inputs that differ escape to different texts. */
  lemma CleanInputInjective(s: string, t: string)
    requires CleanInput(s) == CleanInput(t)
    ensures s == t
  {
    CleanInputRoundTrip(s);
    CleanInputRoundTrip(t);
  }

  // ---------------------------------------------------------------------
  // UTF-16 code units, as `length` and `charCodeAt` see a string
  // ---------------------------------------------------------------------

  /** The UTF-16 encoding of one Unicode scalar value. */
  function Utf16(c: char): (r: seq<int>)
    ensures |r| == 1 || |r| == 2
    ensures forall i :: 0 <= i < |r| ==> 0 <= r[i] < 0x1_0000
    ensures |r| == 1 <==> c as int < 0x1_0000
    ensures |r| == 1 ==> r[0] == c as int
    ensures |r| == 2 ==>
      && 0xD800 <= r[0] < 0xDC00 <= r[1] < 0xE000
      && c as int == 0x1_0000 + (r[0] - 0xD800) * 0x400 + (r[1] - 0xDC00)
  {
    var v := c as int;
    if v < 0x1_0000 then [v]
    else [0xD800 + (v - 0x1_0000) / 0x400, 0xDC00 + (v - 0x1_0000) % 0x400]
  }

  /** The code units of a string, in order: what `charCodeAt(i)` returns for each `i`. */
  function CodeUnits(s: string): (r: seq<int>)
    ensures |s| <= |r| <= 2 * |s|
    ensures forall i :: 0 <= i < |r| ==> 0 <= r[i] < 0x1_0000
  {
    if s == [] then [] else Utf16(s[0]) + CodeUnits(s[1..])
  }

  /** A string within the Basic Multilingual Plane has one code unit per character. */
  lemma {:induction false} CodeUnitsOfBmp(s: string)
    requires forall i :: 0 <= i < |s| ==> s[i] as int < 0x1_0000
    ensures |CodeUnits(s)| == |s|
    ensures forall i :: 0 <= i < |s| ==> CodeUnits(s)[i] == s[i] as int
  {
    if s != [] {
      CodeUnitsOfBmp(s[1..]);
    }
  }

  // ---------------------------------------------------------------------
  // Number to string, for integral Numbers
  // ---------------------------------------------------------------------

  predicate IsDigit(c: char) { '0' <= c <= '9' }

  function DigitChar(d: int): (c: char)
    requires 0 <= d < 10
    ensures IsDigit(c) && c as int - '0' as int == d
  {
    ('0' as int + d) as char
  }

  /** The decimal digits of `n`, most significant first, without leading zeros. */
  function NatToString(n: nat): (r: string)
    ensures 1 <= |r|
    ensures forall i :: 0 <= i < |r| ==> IsDigit(r[i])
    ensures |r| > 1 ==> r[0] != '0'
  {
    if n < 10 then [DigitChar(n)] else NatToString(n / 10) + [DigitChar(n % 10)]
  }

  /** `String(n)` for an integral Number `n` of magnitude below 10^21. */
  function NumberToString(n: int): (r: string)
    ensures 1 <= |r|
    ensures r[0] == '-' <==> n < 0
  {
    if n < 0 then "-" + NatToString(-n) else NatToString(n)
  }

  function DigitValue(c: char): (d: nat)
    requires IsDigit(c)
    ensures d < 10
  {
    c as int - '0' as int
  }

  /** The value of a string of decimal digits. */
  function ParseNat(s: string): nat
    requires forall i :: 0 <= i < |s| ==> IsDigit(s[i])
  {
    if s == [] then 0 else ParseNat(s[..|s| - 1]) * 10 + DigitValue(s[|s| - 1])
  }

  /** The integer a decimal numeral denotes, if it is one. */
  function ParseInt(s: string): Option<int> {
    if |s| >= 2 && s[0] == '-' && forall i :: 1 <= i < |s| ==> IsDigit(s[i]) then
      Some(0 - ParseNat(s[1..]))
    else if |s| >= 1 && forall i :: 0 <= i < |s| ==> IsDigit(s[i]) then
      Some(ParseNat(s))
    else None
  }

  lemma {:induction false} NatToStringRoundTrip(n: nat)
    ensures ParseNat(NatToString(n)) == n
  {
    if n >= 10 {
      NatToStringRoundTrip(n / 10);
      var r := NatToString(n);
      assert r[..|r| - 1] == NatToString(n / 10);
    }
  }

  /** A numeral with a minus sign reads as the negated value of its digits. */
  lemma ParseIntNegative(digits: string)
    requires 1 <= |digits|
    requires forall i :: 0 <= i < |digits| ==> IsDigit(digits[i])
    ensures ParseInt("-" + digits) == Some(0 - ParseNat(digits))
  {
    var r := "-" + digits;
    assert r[1..] == digits;
    forall i | 1 <= i < |r|
      ensures IsDigit(r[i])
    {
      assert r[i] == digits[i - 1];
    }
  }

  /** The decimal rendering of an integer reads back as that integer. */
  lemma NumberToStringRoundTrip(n: int)
    ensures ParseInt(NumberToString(n)) == Some(n)
  {
    if n < 0 {
      var digits := NatToString(-n);
      assert NumberToString(n) == "-" + digits;
      NatToStringRoundTrip(-n);
      ParseIntNegative(digits);
    } else {
      var digits := NatToString(n);
      assert NumberToString(n) == digits;
      assert IsDigit(digits[0]);
      NatToStringRoundTrip(n);
    }
  }
}
