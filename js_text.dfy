/** The JavaScript string builtins the Spotify layer relies on: `trim`, `Array.join`,
    `parseInt(s, 10)`, the decimal form of an integer in a template literal, and the ASCII
    case folding of a case-insensitive regular expression. Strings are sequences of Unicode
    scalar values. */
module JsText {
  import opened Wrappers

  // ---------------------------------------------------------------------------------------
  // Whitespace and trim

  /** WhiteSpace and LineTerminator of ECMAScript: the characters `trim` removes and
      `parseInt` skips. */
  predicate IsJsWhitespace(c: char) {
    ('\U{0009}' <= c <= '\U{000D}') || c == ' ' || c == '\U{00A0}' || c == '\U{1680}' ||
    ('\U{2000}' <= c <= '\U{200A}') || c == '\U{2028}' || c == '\U{2029}' ||
    c == '\U{202F}' || c == '\U{205F}' || c == '\U{3000}' || c == '\U{FEFF}'
  }

  predicate AllWhitespace(s: string) {
    forall i :: 0 <= i < |s| ==> IsJsWhitespace(s[i])
  }

  function TrimStart(s: string): (r: string)
    ensures |r| <= |s|
    ensures r == [] || !IsJsWhitespace(r[0])
    ensures AllWhitespace(s[..|s| - |r|])
  {
    if s == [] || !IsJsWhitespace(s[0]) then s
    else
      var r := TrimStart(s[1..]);
      assert s[1..][..|s| - 1 - |r|] == s[1..|s| - |r|];
      r
  }

  /** What `TrimStart` keeps is the end of the text. */
  lemma {:induction false} TrimStartSuffix(s: string)
    ensures TrimStart(s) == s[|s| - |TrimStart(s)|..]
  {
    if s != [] && IsJsWhitespace(s[0]) {
      TrimStartSuffix(s[1..]);
    }
  }

  function TrimEnd(s: string): (r: string)
    ensures |r| <= |s| && r == s[..|r|]
    ensures r == [] || !IsJsWhitespace(r[|r| - 1])
    ensures AllWhitespace(s[|r|..])
  {
    if s == [] || !IsJsWhitespace(s[|s| - 1]) then s
    else
      var r := TrimEnd(s[..|s| - 1]);
      assert s[|r|..] == s[..|s| - 1][|r|..] + [s[|s| - 1]];
      r
  }

  /** `String.prototype.trim`. */
  function Trim(s: string): (r: string)
    ensures |r| <= |s|
    ensures r == [] || (!IsJsWhitespace(r[0]) && !IsJsWhitespace(r[|r| - 1]))
  {
    TrimEnd(TrimStart(s))
  }

  lemma {:induction false} TrimStartSkips(ws: string, s: string)
    requires AllWhitespace(ws)
    ensures TrimStart(ws + s) == TrimStart(s)
  {
    if ws != [] {
      assert (ws + s)[1..] == ws[1..] + s;
      TrimStartSkips(ws[1..], s);
    } else {
      assert ws + s == s;
    }
  }

  lemma {:induction false} TrimEndSkips(s: string, ws: string)
    requires AllWhitespace(ws)
    ensures TrimEnd(s + ws) == TrimEnd(s)
  {
    if ws != [] {
      assert (s + ws)[..|s + ws| - 1] == s + ws[..|ws| - 1];
      TrimEndSkips(s, ws[..|ws| - 1]);
    } else {
      assert s + ws == s;
    }
  }

  lemma {:induction false} TrimIgnoresTrailing(s: string, ws: string)
    requires AllWhitespace(ws)
    ensures TrimEnd(TrimStart(s + ws)) == TrimEnd(TrimStart(s))
  {
    if s == [] {
      assert [] + ws == ws + [];
      TrimStartSkips(ws, []);
    } else if IsJsWhitespace(s[0]) {
      assert (s + ws)[1..] == s[1..] + ws;
      TrimIgnoresTrailing(s[1..], ws);
    } else {
      TrimEndSkips(s, ws);
    }
  }

  /** Whitespace around a string never changes its trimmed form. */
  lemma TrimPadded(ws1: string, s: string, ws2: string)
    requires AllWhitespace(ws1) && AllWhitespace(ws2)
    ensures Trim(ws1 + s + ws2) == Trim(s)
  {
    assert ws1 + s + ws2 == ws1 + (s + ws2);
    TrimStartSkips(ws1, s + ws2);
    TrimIgnoresTrailing(s, ws2);
  }

  /** A string without whitespace at either end is its own trimmed form; in particular
      trimming twice is trimming once. */
  lemma TrimOfTrimmed(t: string)
    requires t == [] || (!IsJsWhitespace(t[0]) && !IsJsWhitespace(t[|t| - 1]))
    ensures Trim(t) == t
  {
  }

  lemma TrimIdempotent(s: string)
    ensures Trim(Trim(s)) == Trim(s)
  {
    TrimOfTrimmed(Trim(s));
  }

  /** A string trims to nothing exactly when it is all whitespace. */
  lemma TrimEmpty(s: string)
    ensures Trim(s) == [] <==> AllWhitespace(s)
  {
    var t := TrimStart(s);
    if AllWhitespace(s) {
      assert s == s + [];
      TrimStartSkips(s, []);
    } else if t != [] {
      assert TrimEnd(t) != [] by { assert !IsJsWhitespace(t[0]); }
    }
  }

  // ---------------------------------------------------------------------------------------
  // Array.prototype.join

  /** `parts.join(sep)` for an array of strings. */
  function Join(parts: seq<string>, sep: string): (r: string)
    ensures parts == [] ==> r == ""
    ensures |parts| == 1 ==> r == parts[0]
  {
    if parts == [] then ""
    else if |parts| == 1 then parts[0]
    else parts[0] + sep + Join(parts[1..], sep)
  }

  // ---------------------------------------------------------------------------------------
  // ASCII classes and case folding

  predicate IsAsciiDigit(c: char) { '0' <= c <= '9' }
  predicate IsAsciiLetter(c: char) { ('A' <= c <= 'Z') || ('a' <= c <= 'z') }
  predicate IsAsciiAlnum(c: char) { IsAsciiDigit(c) || IsAsciiLetter(c) }

  predicate AllAlnum(s: string) {
    forall i :: 0 <= i < |s| ==> IsAsciiAlnum(s[i])
  }

  predicate AllDigits(s: string) {
    forall i :: 0 <= i < |s| ==> IsAsciiDigit(s[i])
  }

  /** The canonical form a case-insensitive (non-Unicode) regular expression compares: only
      ASCII letters fold, since a non-ASCII character never folds onto an ASCII one. */
  function FoldCase(c: char): (r: char)
    ensures IsAsciiAlnum(r) <==> IsAsciiAlnum(c)
  {
    if 'a' <= c <= 'z' then (c as int - 32) as char else c
  }

  predicate EqualsIgnoringCase(a: string, b: string) {
    |a| == |b| && forall i :: 0 <= i < |a| ==> FoldCase(a[i]) == FoldCase(b[i])
  }

  // ---------------------------------------------------------------------------------------
  // Decimal notation

  function DigitChar(d: nat): (c: char)
    requires d < 10
    ensures IsAsciiDigit(c)
  {
    ('0' as int + d) as char
  }

  function DigitValue(c: char): (d: nat)
    requires IsAsciiDigit(c)
    ensures d < 10 && DigitChar(d) == c
  {
    c as int - '0' as int
  }

  /** The decimal digits of `n`, without leading zeros. */
  function NatToString(n: nat): (r: string)
    ensures r != [] && AllDigits(r)
    ensures |r| > 1 ==> r[0] != '0'
    decreases n
  {
    if n < 10 then [DigitChar(n)]
    else NatToString(n / 10) + [DigitChar(n % 10)]
  }

  /** `${n}` for an integer `n`. */
  function IntToString(i: int): (r: string)
    ensures r != []
    ensures i >= 0 ==> AllDigits(r)
    ensures i < 0 ==> r[0] == '-' && AllDigits(r[1..])
  {
    if i >= 0 then NatToString(i) else "-" + NatToString(-i)
  }

  /** The value of a non-empty run of decimal digits. */
  function DigitsValue(s: string): (n: nat)
    requires AllDigits(s)
  {
    if s == [] then 0 else DigitsValue(s[..|s| - 1]) * 10 + DigitValue(s[|s| - 1])
  }

  lemma {:induction false} NatToStringValue(n: nat)
    ensures DigitsValue(NatToString(n)) == n
    decreases n
  {
    if n >= 10 {
      var s := NatToString(n);
      assert s[..|s| - 1] == NatToString(n / 10);
      NatToStringValue(n / 10);
    }
  }

  /** Different numbers have different decimal forms. */
  lemma NatToStringInjective(m: nat, n: nat)
    requires NatToString(m) == NatToString(n)
    ensures m == n
  {
    NatToStringValue(m);
    NatToStringValue(n);
  }

  // ---------------------------------------------------------------------------------------
  // parseInt(s, 10)

  /** The longest prefix of `s` made of decimal digits. */
  function DigitPrefix(s: string): (r: string)
    ensures |r| <= |s| && r == s[..|r|] && AllDigits(r)
    ensures |r| < |s| ==> !IsAsciiDigit(s[|r|])
  {
    if s == [] || !IsAsciiDigit(s[0]) then ""
    else
      var r := [s[0]] + DigitPrefix(s[1..]);
      assert r == s[..|r|];
      r
  }

  /** `Number.parseInt(s, 10)`: skip leading whitespace, read an optional sign, then the longest
      run of decimal digits; `None` stands for NaN. */
  function ParseInt(s: string): (r: Option<int>)
  {
    var t := TrimStart(s);
    var negative := t != [] && t[0] == '-';
    var body := if t != [] && (t[0] == '-' || t[0] == '+') then t[1..] else t;
    var digits := DigitPrefix(body);
    if digits == [] then None
    else if negative then Some(-(DigitsValue(digits) as int))
    else Some(DigitsValue(digits))
  }

  lemma DigitPrefixOfDigits(s: string, rest: string)
    requires AllDigits(s)
    requires rest == [] || !IsAsciiDigit(rest[0])
    ensures DigitPrefix(s + rest) == s
  {
    if s == [] {
      assert s + rest == rest;
    } else {
      assert (s + rest)[1..] == s[1..] + rest;
      DigitPrefixOfDigits(s[1..], rest);
    }
  }

  /** Text that starts with a digit or a sign has no leading whitespace to skip. */
  lemma TrimStartOfSigned(s: string)
    requires s != [] && (IsAsciiDigit(s[0]) || s[0] == '-')
    ensures TrimStart(s) == s
  {
    assert !IsJsWhitespace(s[0]);
  }

  /** A run of digits followed by a non-digit is read as its value. */
  lemma ParseIntOfDigits(digits: string, rest: string)
    requires digits != [] && AllDigits(digits)
    requires rest == [] || !IsAsciiDigit(rest[0])
    ensures ParseInt(digits + rest) == Some(DigitsValue(digits))
  {
    var s := digits + rest;
    assert s[0] == digits[0];
    TrimStartOfSigned(s);
    DigitPrefixOfDigits(digits, rest);
  }

  /** The same after a minus sign, negated. */
  lemma ParseIntOfNegatedDigits(s: string, digits: string, rest: string)
    requires digits != [] && AllDigits(digits)
    requires rest == [] || !IsAsciiDigit(rest[0])
    requires s != [] && s[0] == '-' && s[1..] == digits + rest
    ensures ParseInt(s) == Some(-(DigitsValue(digits) as int))
  {
    ParseIntOfMinus(s);
    DigitPrefixOfDigits(digits, rest);
  }

  /** After a minus sign `parseInt` reads the digits that follow it, negated. */
  lemma ParseIntOfMinus(s: string)
    requires s != [] && s[0] == '-'
    ensures ParseInt(s) ==
      if DigitPrefix(s[1..]) == [] then None else Some(-(DigitsValue(DigitPrefix(s[1..])) as int))
  {
    TrimStartOfSigned(s);
  }

  /** `parseInt` reads back what `${i}` writes, whatever non-digit text follows. */
  lemma ParseIntOfIntToString(i: int, rest: string)
    requires rest == [] || !IsAsciiDigit(rest[0])
    ensures ParseInt(IntToString(i) + rest) == Some(i)
  {
    if i >= 0 {
      ParseIntOfDigits(NatToString(i), rest);
      NatToStringValue(i);
    } else {
      var s := IntToString(i) + rest;
      assert s[1..] == NatToString(-i) + rest;
      ParseIntOfNegatedDigits(s, NatToString(-i), rest);
      NatToStringValue(-i);
    }
  }
}
