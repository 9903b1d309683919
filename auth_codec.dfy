/** The text form of the stored token record: what `JSON.stringify` writes for a
    `StoredSpotifyAuth`, and a reader for that text. */
module AuthCodec {
  import opened Wrappers
  import opened JsText
  import opened SpotifyTypes

  // ---------------------------------------------------------------------------------------
  // JSON string literals

  function LowerHexDigit(d: nat): (c: char)
    requires d < 16
  {
    if d < 10 then ('0' as int + d) as char else ('a' as int + d - 10) as char
  }

  /** The value of a hexadecimal digit of either case, or -1. */
  function HexDigitValue(c: char): (r: int)
    ensures -1 <= r < 16
  {
    if '0' <= c <= '9' then c as int - '0' as int
    else if 'a' <= c <= 'f' then c as int - 'a' as int + 10
    else if 'A' <= c <= 'F' then c as int - 'A' as int + 10
    else -1
  }

  /** How `JSON.stringify` writes one character inside quotes: the two-character escapes of
      `"`, `\`, backspace, tab, line feed, form feed and carriage return, `\u00xx` (lower-case
      hex) for the other control characters, and every other character as itself. */
  function EscapeChar(c: char): (r: string)
    ensures r != [] && r[0] != '"'
  {
    if c == '"' then "\\\""
    else if c == '\\' then "\\\\"
    else if c == '\U{0008}' then "\\b"
    else if c == '\t' then "\\t"
    else if c == '\n' then "\\n"
    else if c == '\U{000C}' then "\\f"
    else if c == '\r' then "\\r"
    else if (c as int) < 0x20 then
      ['\\', 'u', '0', '0', LowerHexDigit(c as int / 16), LowerHexDigit(c as int % 16)]
    else [c]
  }

  /** The characters of a string between its quotes. */
  function EscapeBody(s: string): string
  {
    if s == [] then "" else EscapeChar(s[0]) + EscapeBody(s[1..])
  }

  /** `JSON.stringify(s)` for a string. */
  function Quote(s: string): string
  {
    "\"" + EscapeBody(s) + "\""
  }

  /** The character an escape letter after `\` stands for, when it is one of JSON's. */
  function ShortEscape(c: char): Option<char>
  {
    if c == '"' then Some('"')
    else if c == '\\' then Some('\\')
    else if c == '/' then Some('/')
    else if c == 'b' then Some('\U{0008}')
    else if c == 't' then Some('\t')
    else if c == 'n' then Some('\n')
    else if c == 'f' then Some('\U{000C}')
    else if c == 'r' then Some('\r')
    else None
  }

  /** The character of a `\uXXXX` escape whose four digits start `s`; surrogate halves are
      refused. */
  function UnicodeEscape(s: string): Option<char>
    requires |s| >= 4
  {
    var d0, d1, d2, d3 := HexDigitValue(s[0]), HexDigitValue(s[1]), HexDigitValue(s[2]), HexDigitValue(s[3]);
    if d0 < 0 || d1 < 0 || d2 < 0 || d3 < 0 then None
    else
      var v := ((d0 * 16 + d1) * 16 + d2) * 16 + d3;
      if 0xD800 <= v < 0xE000 then None else Some(v as char)
  }

  /** Reads the rest of a JSON string literal whose opening quote is already consumed:
      the decoded value and the text after the closing quote. */
  function Unquote(s: string): (r: Option<(string, string)>)
    ensures r.Some? ==> |r.value.1| < |s|
    decreases |s|
  {
    if s == [] then None
    else if s[0] == '"' then Some(("", s[1..]))
    else if (s[0] as int) < 0x20 then None
    else if s[0] != '\\' then
      match Unquote(s[1..])
      case Some((v, rest)) => Some(([s[0]] + v, rest))
      case None => None
    else if |s| < 2 then None
    else if s[1] == 'u' then
      if |s| < 6 then None
      else
        match UnicodeEscape(s[2..6])
        case None => None
        case Some(c) =>
          match Unquote(s[6..])
          case Some((v, rest)) => Some(([c] + v, rest))
          case None => None
    else
      match ShortEscape(s[1])
      case None => None
      case Some(c) =>
        match Unquote(s[2..])
        case Some((v, rest)) => Some(([c] + v, rest))
        case None => None
  }

  lemma UnquoteEscapeChar(c: char, t: string)
    ensures Unquote(EscapeChar(c) + t) ==
      match Unquote(t)
      case Some((v, rest)) => Some(([c] + v, rest))
      case None => None
  {
    var e := EscapeChar(c);
    var s := e + t;
    if |e| == 1 {
      assert s[1..] == t;
    } else if |e| == 2 {
      assert s[2..] == t;
    } else {
      assert s[6..] == t;
      assert s[2..6] == e[2..6];
      var h, l := c as int / 16, c as int % 16;
      assert HexDigitValue(LowerHexDigit(h)) == h;
      assert HexDigitValue(LowerHexDigit(l)) == l;
    }
  }

  /** A quoted string reads back as itself, whatever follows the closing quote. */
  lemma {:induction false} UnquoteQuote(s: string, rest: string)
    ensures Unquote(EscapeBody(s) + ("\"" + rest)) == Some((s, rest))
  {
    if s == [] {
      assert EscapeBody(s) + ("\"" + rest) == "\"" + rest;
      assert ("\"" + rest)[1..] == rest;
    } else {
      assert EscapeBody(s) + ("\"" + rest) == EscapeChar(s[0]) + (EscapeBody(s[1..]) + ("\"" + rest));
      UnquoteEscapeChar(s[0], EscapeBody(s[1..]) + ("\"" + rest));
      UnquoteQuote(s[1..], rest);
      assert [s[0]] + s[1..] == s;
    }
  }

  // ---------------------------------------------------------------------------------------
  // Integers

  /** A JSON integer written in its canonical form, the form `JSON.stringify` writes. */
  function ReadInt(s: string): (r: Option<int>)
    ensures r.Some? ==> IntToString(r.value) == s
  {
    var p := ParseInt(s);
    if p.Some? && IntToString(p.value) == s then p else None
  }

  lemma ReadIntToString(i: int)
    ensures ReadInt(IntToString(i)) == Some(i)
  {
    assert IntToString(i) + "" == IntToString(i);
    ParseIntOfIntToString(i, "");
  }

  // ---------------------------------------------------------------------------------------
  // The stored record

  const ACCESS_TOKEN_FIELD: string := "{\"accessToken\":\""
  const REFRESH_TOKEN_FIELD: string := ",\"refreshToken\":\""
  const EXPIRES_AT_FIELD: string := ",\"expiresAt\":"

  /** The expiry field and the closing brace. */
  function ExpiresAtPart(e: int): string {
    EXPIRES_AT_FIELD + (IntToString(e) + "}")
  }

  /** The refresh-token field, when there is one, before the rest of the text. */
  function RefreshPart(r: Option<string>, tail: string): string {
    match r
    case Some(t) => REFRESH_TOKEN_FIELD + (EscapeBody(t) + ("\"" + tail))
    case None => tail
  }

  /** `JSON.stringify(auth)`: the fields in the order the record literal lists them, with an
      absent refresh token left out. */
  function EncodeAuth(a: StoredAuth): string
  {
    ACCESS_TOKEN_FIELD +
      (EscapeBody(a.accessToken) + ("\"" + RefreshPart(a.refreshToken, ExpiresAtPart(a.expiresAt))))
  }

  function StartsWith(s: string, p: string): bool {
    |p| <= |s| && s[..|p|] == p
  }

  /** Reads the expiry field and the closing brace. */
  function DecodeExpiresAt(s: string): Option<int>
  {
    if StartsWith(s, EXPIRES_AT_FIELD) && |s| > |EXPIRES_AT_FIELD| && s[|s| - 1] == '}' then
      ReadInt(s[|EXPIRES_AT_FIELD|..|s| - 1])
    else None
  }

  /** Reads the fields after the access token. */
  function DecodeAfterAccess(access: string, r1: string): Option<StoredAuth>
  {
    if StartsWith(r1, REFRESH_TOKEN_FIELD) then
      match Unquote(r1[|REFRESH_TOKEN_FIELD|..])
      case None => None
      case Some((refresh, r2)) =>
        match DecodeExpiresAt(r2)
        case None => None
        case Some(e) => Some(StoredAuth(access, Some(refresh), e))
    else
      match DecodeExpiresAt(r1)
      case None => None
      case Some(e) => Some(StoredAuth(access, None, e))
  }

  /** Reads the text `EncodeAuth` writes; any other text is malformed. */
  function DecodeAuth(raw: string): Option<StoredAuth>
  {
    if !StartsWith(raw, ACCESS_TOKEN_FIELD) then None
    else
      match Unquote(raw[|ACCESS_TOKEN_FIELD|..])
      case None => None
      case Some((access, r1)) => DecodeAfterAccess(access, r1)
  }

  lemma AfterPrefix(p: string, s: string)
    ensures StartsWith(p + s, p) && (p + s)[|p|..] == s
  {
    assert (p + s)[..|p|] == p;
  }

  lemma DecodeExpiresAtOf(i: int)
    ensures DecodeExpiresAt(ExpiresAtPart(i)) == Some(i)
  {
    var s := ExpiresAtPart(i);
    AfterPrefix(EXPIRES_AT_FIELD, IntToString(i) + "}");
    assert s[|EXPIRES_AT_FIELD|..|s| - 1] == IntToString(i);
    ReadIntToString(i);
  }

  lemma DecodeRefreshPart(r: Option<string>, e: int)
    ensures match r
      case Some(t) =>
        StartsWith(RefreshPart(r, ExpiresAtPart(e)), REFRESH_TOKEN_FIELD) &&
        Unquote(RefreshPart(r, ExpiresAtPart(e))[|REFRESH_TOKEN_FIELD|..]) == Some((t, ExpiresAtPart(e)))
      case None => !StartsWith(RefreshPart(r, ExpiresAtPart(e)), REFRESH_TOKEN_FIELD)
  {
    var tail := ExpiresAtPart(e);
    match r
    case Some(t) => {
      AfterPrefix(REFRESH_TOKEN_FIELD, EscapeBody(t) + ("\"" + tail));
      UnquoteQuote(t, tail);
    }
    case None => {
      AfterPrefix(EXPIRES_AT_FIELD, IntToString(e) + "}");
      assert tail[2] == 'e';
    }
  }

  /** Reading back what was written gives the same record. */
  lemma DecodeEncodeAuth(a: StoredAuth)
    ensures DecodeAuth(EncodeAuth(a)) == Some(a)
  {
    var raw := EncodeAuth(a);
    var r1 := RefreshPart(a.refreshToken, ExpiresAtPart(a.expiresAt));
    AfterPrefix(ACCESS_TOKEN_FIELD, EscapeBody(a.accessToken) + ("\"" + r1));
    UnquoteQuote(a.accessToken, r1);
    DecodeAfterAccessOf(a.accessToken, a.refreshToken, a.expiresAt);
  }

  lemma DecodeAfterAccessOf(access: string, r: Option<string>, e: int)
    ensures DecodeAfterAccess(access, RefreshPart(r, ExpiresAtPart(e))) == Some(StoredAuth(access, r, e))
  {
    DecodeRefreshPart(r, e);
    DecodeExpiresAtOf(e);
  }

  /** The written text is never empty, so a written record is never read as "nothing stored". */
  lemma EncodeAuthNonEmpty(a: StoredAuth)
    ensures EncodeAuth(a) != ""
  {
    assert EncodeAuth(a)[0] == '{';
  }
}
