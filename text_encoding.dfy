/** Bytes, UTF-8 (what `TextEncoder` produces) and the application/x-www-form-urlencoded
    serialisation that `URLSearchParams.toString()` applies to every name and value. */
module TextEncoding {
  import JsText

  newtype byte = x: int | 0 <= x < 256

  // ---------------------------------------------------------------------------------------
  // UTF-8

  /** The UTF-8 bytes of one Unicode scalar value. */
  function Utf8Char(c: char): (r: seq<byte>)
    ensures 1 <= |r| <= 4
    ensures (c as int) < 0x80 <==> |r| == 1
    ensures (c as int) < 0x80 ==> r == [c as int as byte]
  {
    var v := c as int;
    if v < 0x80 then [v as byte]
    else if v < 0x800 then [(0xC0 + v / 64) as byte, (0x80 + v % 64) as byte]
    else if v < 0x10000 then
      [(0xE0 + v / 4096) as byte, (0x80 + (v / 64) % 64) as byte, (0x80 + v % 64) as byte]
    else
      [(0xF0 + v / 262144) as byte, (0x80 + (v / 4096) % 64) as byte,
       (0x80 + (v / 64) % 64) as byte, (0x80 + v % 64) as byte]
  }

  /** `new TextEncoder().encode(s)`. */
  function Utf8Encode(s: string): (r: seq<byte>)
    ensures |r| >= |s|
  {
    if s == [] then [] else Utf8Char(s[0]) + Utf8Encode(s[1..])
  }

  predicate IsAscii(s: string) {
    forall i :: 0 <= i < |s| ==> (s[i] as int) < 0x80
  }

  /** An ASCII string encodes to one byte per character, its code. */
  lemma {:induction false} Utf8OfAscii(s: string)
    requires IsAscii(s)
    ensures |Utf8Encode(s)| == |s|
    ensures forall i :: 0 <= i < |s| ==> Utf8Encode(s)[i] as int == s[i] as int
  {
    if s != [] {
      Utf8OfAscii(s[1..]);
    }
  }

  // ---------------------------------------------------------------------------------------
  // application/x-www-form-urlencoded

  /** The bytes the form serialiser leaves as they are: `*-._`, digits and ASCII letters. */
  predicate IsFormSafe(b: byte) {
    b == 0x2A || b == 0x2D || b == 0x2E || b == 0x5F ||
    (0x30 <= b <= 0x39) || (0x41 <= b <= 0x5A) || (0x61 <= b <= 0x7A)
  }

  function HexDigit(d: nat): (c: char)
    requires d < 16
  {
    if d < 10 then ('0' as int + d) as char else ('A' as int + d - 10) as char
  }

  function HexValue(c: char): (r: int)
  {
    if '0' <= c <= '9' then c as int - '0' as int
    else if 'A' <= c <= 'F' then c as int - 'A' as int + 10
    else if 'a' <= c <= 'f' then c as int - 'a' as int + 10
    else -1
  }

  /** One byte as the serialiser writes it: a space as `+`, a safe byte as its character,
      anything else as `%` and two upper-case hex digits. */
  function EncodeByte(b: byte): (r: string)
    ensures r == "+" || |r| == 1 || (|r| == 3 && r[0] == '%')
    ensures forall i :: 0 <= i < |r| ==> r[i] != '&' && r[i] != '=' && r[i] != ' '
  {
    if b == 0x20 then "+"
    else if IsFormSafe(b) then [b as int as char]
    else ['%', HexDigit(b as int / 16), HexDigit(b as int % 16)]
  }

  function EncodeBytes(bs: seq<byte>): (r: string)
    ensures forall i :: 0 <= i < |r| ==> r[i] != '&' && r[i] != '=' && r[i] != ' '
  {
    if bs == [] then ""
    else
      var head := EncodeByte(bs[0]);
      var tail := EncodeBytes(bs[1..]);
      assert forall i :: 0 <= i < |head + tail| ==>
        (head + tail)[i] == (if i < |head| then head[i] else tail[i - |head|]);
      head + tail
  }

  /** How `URLSearchParams` writes one name or value. */
  function FormEncode(s: string): (r: string)
    ensures forall i :: 0 <= i < |r| ==> r[i] != '&' && r[i] != '=' && r[i] != ' '
  {
    EncodeBytes(Utf8Encode(s))
  }

  /** `new URLSearchParams(pairs).toString()`. */
  function QueryString(pairs: seq<(string, string)>): (r: string)
  {
    JsText.Join(seq(|pairs|, i requires 0 <= i < |pairs| =>
      FormEncode(pairs[i].0) + "=" + FormEncode(pairs[i].1)), "&")
  }

  // ---------------------------------------------------------------------------------------
  // The form parser, used as the partner of the serialiser

  /** The bytes of a form-encoded text: `+` is a space, `%XX` a byte, any other ASCII
      character its own code. */
  function DecodeBytes(s: string): seq<byte>
    decreases |s|
  {
    if s == [] then []
    else if s[0] == '+' then [0x20 as byte] + DecodeBytes(s[1..])
    else if s[0] == '%' && |s| >= 3 && 0 <= HexValue(s[1]) && 0 <= HexValue(s[2]) then
      [(HexValue(s[1]) * 16 + HexValue(s[2])) as byte] + DecodeBytes(s[3..])
    else [((s[0] as int) % 256) as byte] + DecodeBytes(s[1..])
  }

  lemma DecodeEncodedByte(b: byte, rest: string)
    ensures DecodeBytes(EncodeByte(b) + rest) == [b] + DecodeBytes(rest)
  {
    var e := EncodeByte(b);
    if b == 0x20 {
      assert (e + rest)[1..] == rest;
    } else if IsFormSafe(b) {
      assert (e + rest)[0] == b as int as char;
      assert (e + rest)[1..] == rest;
    } else {
      assert HexValue(HexDigit(b as int / 16)) == b as int / 16;
      assert HexValue(HexDigit(b as int % 16)) == b as int % 16;
      assert (e + rest)[3..] == rest;
    }
  }

  lemma {:induction false} DecodeEncodeBytes(bs: seq<byte>)
    ensures DecodeBytes(EncodeBytes(bs)) == bs
  {
    if bs != [] {
      DecodeEncodedByte(bs[0], EncodeBytes(bs[1..]));
      DecodeEncodeBytes(bs[1..]);
    }
  }

  /** The form parser recovers exactly the UTF-8 bytes of every encoded name or value. */
  lemma FormDecodeEncode(s: string)
    ensures DecodeBytes(FormEncode(s)) == Utf8Encode(s)
  {
    DecodeEncodeBytes(Utf8Encode(s));
  }

  /** Splitting at every occurrence of a separator character. */
  function Split(s: string, sep: char): (r: seq<string>)
    ensures |r| >= 1
    decreases |s|
  {
    if s == [] then [""]
    else
      var rest := Split(s[1..], sep);
      if s[0] == sep then [""] + rest else [[s[0]] + rest[0]] + rest[1..]
  }

  predicate Free(s: string, c: char) {
    forall i :: 0 <= i < |s| ==> s[i] != c
  }

  lemma {:induction false} SplitFree(s: string, sep: char, tail: string)
    requires Free(s, sep)
    ensures Split(s + [sep] + tail, sep) == [s] + Split(tail, sep)
    ensures tail == [] ==> Split(s, sep) == [s]
  {
    if s == [] {
      assert s + [sep] + tail == [sep] + tail;
      assert ([sep] + tail)[1..] == tail;
    } else {
      assert (s + [sep] + tail)[1..] == s[1..] + [sep] + tail;
      SplitFree(s[1..], sep, tail);
      assert [s[0]] + s[1..] == s;
    }
  }

  lemma {:induction false} SplitJoin(parts: seq<string>, sep: char)
    requires parts != []
    requires forall i :: 0 <= i < |parts| ==> Free(parts[i], sep)
    ensures Split(JsText.Join(parts, [sep]), sep) == parts
  {
    if |parts| == 1 {
      SplitFree(parts[0], sep, []);
    } else {
      SplitJoin(parts[1..], sep);
      SplitFree(parts[0], sep, JsText.Join(parts[1..], [sep]));
      assert parts == [parts[0]] + parts[1..];
    }
  }

  /** The text before and after the first `=` of a `name=value` field. */
  function SplitField(f: string): (string, string)
  {
    if f == [] then ("", "")
    else if f[0] == '=' then ("", f[1..])
    else var (n, v) := SplitField(f[1..]); ([f[0]] + n, v)
  }

  lemma {:induction false} SplitFieldFree(n: string, v: string)
    requires Free(n, '=')
    ensures SplitField(n + "=" + v) == (n, v)
  {
    if n == [] {
      assert n + "=" + v == "=" + v;
      assert ("=" + v)[1..] == v;
    } else {
      assert (n + "=" + v)[1..] == n[1..] + "=" + v;
      SplitFieldFree(n[1..], v);
      assert [n[0]] + n[1..] == n;
    }
  }

  /** The name/value byte pairs of a query string, as an authorization server reads them. */
  function ParseQuery(q: string): seq<(seq<byte>, seq<byte>)>
  {
    if q == "" then []
    else
      var fields := Split(q, '&');
      seq(|fields|, i requires 0 <= i < |fields| =>
        var (n, v) := SplitField(fields[i]); (DecodeBytes(n), DecodeBytes(v)))
  }

  /** The UTF-8 name/value pairs a server reads from a form or a query. */
  function Utf8Pairs(pairs: seq<(string, string)>): seq<(seq<byte>, seq<byte>)> {
    seq(|pairs|, i requires 0 <= i < |pairs| => (Utf8Encode(pairs[i].0), Utf8Encode(pairs[i].1)))
  }

  /** Reading a serialised parameter list back gives exactly its names and values, in order. */
  lemma ParseQueryString(pairs: seq<(string, string)>)
    requires pairs != []
    ensures ParseQuery(QueryString(pairs)) == Utf8Pairs(pairs)
  {
    var fields := seq(|pairs|, i requires 0 <= i < |pairs| =>
      FormEncode(pairs[i].0) + "=" + FormEncode(pairs[i].1));
    forall i | 0 <= i < |fields| ensures Free(fields[i], '&') {
      var e0, e1 := FormEncode(pairs[i].0), FormEncode(pairs[i].1);
      assert forall j :: 0 <= j < |e0 + "=" + e1| ==>
        (e0 + "=" + e1)[j] == (if j < |e0| then e0[j] else if j == |e0| then '=' else e1[j - |e0| - 1]);
    }
    SplitJoin(fields, '&');
    var q := QueryString(pairs);
    assert q != "" by {
      assert |fields[0]| > 0;
      if |pairs| > 1 { assert q == fields[0] + "&" + JsText.Join(fields[1..], "&"); }
    }
    forall i | 0 <= i < |pairs|
      ensures SplitField(fields[i]) == (FormEncode(pairs[i].0), FormEncode(pairs[i].1))
    {
      SplitFieldFree(FormEncode(pairs[i].0), FormEncode(pairs[i].1));
    }
    forall i | 0 <= i < |pairs| ensures DecodeBytes(FormEncode(pairs[i].0)) == Utf8Encode(pairs[i].0)
      && DecodeBytes(FormEncode(pairs[i].1)) == Utf8Encode(pairs[i].1)
    {
      FormDecodeEncode(pairs[i].0);
      FormDecodeEncode(pairs[i].1);
    }
  }
}
