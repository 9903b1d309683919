/** base64url encoding, the PKCE code verifier and the S256 code challenge
    (sections 4.1 and 4.2 of RFC 7636; the alphabet of section 5 of RFC 4648). */
module SpotifyUtils {
  import opened TextEncoding
  import opened SpotifyTypes
  import opened Wrappers

  const DEFAULT_VERIFIER_LENGTH: nat := 96

  // ---------------------------------------------------------------------------------------
  // Base64 (section 4 of RFC 4648) and its url-safe variant (section 5)

  /** A 6-bit value, one character of the encoding. */
  newtype sextet = x: int | 0 <= x < 64

  /** The 6-bit values of the bytes from index `i` on: four per group of three bytes, then
      two for a final single byte or three for a final pair, the missing bits being zero. */
  function SextetsFrom(b: seq<byte>, i: nat): seq<sextet>
    requires i <= |b|
    decreases |b| - i
  {
    if |b| - i == 0 then []
    else if |b| - i == 1 then [(b[i] as int / 4) as sextet, ((b[i] as int % 4) * 16) as sextet]
    else if |b| - i == 2 then
      [(b[i] as int / 4) as sextet, ((b[i] as int % 4) * 16 + b[i + 1] as int / 16) as sextet,
       ((b[i + 1] as int % 16) * 4) as sextet]
    else
      [(b[i] as int / 4) as sextet, ((b[i] as int % 4) * 16 + b[i + 1] as int / 16) as sextet,
       ((b[i + 1] as int % 16) * 4 + b[i + 2] as int / 64) as sextet, (b[i + 2] as int % 64) as sextet]
      + SextetsFrom(b, i + 3)
  }

  function Sextets(b: seq<byte>): seq<sextet> {
    SextetsFrom(b, 0)
  }

  /** The standard alphabet. */
  function StdChar(v: sextet): (c: char)
  {
    if v < 26 then ('A' as int + v as int) as char
    else if v < 52 then ('a' as int + v as int - 26) as char
    else if v < 62 then ('0' as int + v as int - 52) as char
    else if v == 62 then '+'
    else '/'
  }

  /** The `=` characters that complete the last group of `n` bytes. */
  function Padding(n: nat): (r: string)
    ensures forall i :: 0 <= i < |r| ==> r[i] == '='
  {
    if n == 0 then "" else if n == 1 then "==" else if n == 2 then "=" else Padding(n - 3)
  }

  /** `btoa(String.fromCharCode(...bytes))`: every byte becomes one character of code 0-255,
      and `btoa` writes standard base64 of those bytes with `=` padding. */
  function Base64(b: seq<byte>): string
  {
    var v := Sextets(b);
    seq(|v|, i requires 0 <= i < |v| => StdChar(v[i])) + Padding(|b|)
  }

  function SafeChar(c: char): char {
    if c == '+' then '-' else if c == '/' then '_' else c
  }

  /** `.replace(/\+/g, "-").replace(/\//g, "_")`. */
  function MakeUrlSafe(s: string): (r: string)
    ensures |r| == |s|
    ensures forall i :: 0 <= i < |s| ==> r[i] == SafeChar(s[i])
  {
    if s == [] then "" else [SafeChar(s[0])] + MakeUrlSafe(s[1..])
  }

  /** `.replace(/=+$/, "")`: drop the run of `=` at the end. */
  function StripTrailingEquals(s: string): (r: string)
    ensures |r| <= |s| && r == s[..|r|]
    ensures r == [] || r[|r| - 1] != '='
    ensures forall i :: |r| <= i < |s| ==> s[i] == '='
    decreases |s|
  {
    if s != [] && s[|s| - 1] == '=' then StripTrailingEquals(s[..|s| - 1]) else s
  }

  /** `base64UrlEncode(bytes)`. */
  function Base64UrlEncode(b: seq<byte>): string
  {
    StripTrailingEquals(MakeUrlSafe(Base64(b)))
  }

  // ---------------------------------------------------------------------------------------
  // The reference: unpadded base64url

  predicate IsUrlSafeChar(c: char) {
    ('A' <= c <= 'Z') || ('a' <= c <= 'z') || ('0' <= c <= '9') || c == '-' || c == '_'
  }

  predicate IsUrlSafe(s: string) {
    forall i :: 0 <= i < |s| ==> IsUrlSafeChar(s[i])
  }

  /** The url-safe alphabet: `-` and `_` in place of `+` and `/`. */
  function UrlChar(v: sextet): (c: char)
    ensures IsUrlSafeChar(c)
  {
    if v < 62 then StdChar(v) else if v == 62 then '-' else '_'
  }

  /** Unpadded base64url: one url-safe character per 6-bit value, no padding. */
  function UrlChars(v: seq<sextet>): (r: string)
    ensures |r| == |v|
  {
    seq(|v|, i requires 0 <= i < |v| => UrlChar(v[i]))
  }

  function Base64UrlUnpadded(b: seq<byte>): (r: string)
    ensures IsUrlSafe(r)
  {
    UrlChars(Sextets(b))
  }

  lemma UrlCharsAppend(v: seq<sextet>, w: seq<sextet>)
    ensures UrlChars(v + w) == UrlChars(v) + UrlChars(w)
  {
  }

  /** The length of `n` encoded bytes: 4 per full group, then 0, 2 or 3. */
  function EncodedLength(n: nat): nat {
    4 * (n / 3) + (if n % 3 == 0 then 0 else if n % 3 == 1 then 2 else 3)
  }

  lemma {:induction false} SextetsFromLength(b: seq<byte>, i: nat)
    requires i <= |b|
    ensures |SextetsFrom(b, i)| == EncodedLength(|b| - i)
    decreases |b| - i
  {
    if |b| - i >= 3 {
      SextetsFromLength(b, i + 3);
    }
  }

  lemma SafeOfStd(v: sextet)
    ensures SafeChar(StdChar(v)) == UrlChar(v)
  {
  }

  /** The url-safe form of the padded encoding is the reference followed by the padding. */
  lemma UrlSafeOfPadded(b: seq<byte>)
    ensures MakeUrlSafe(Base64(b)) == Base64UrlUnpadded(b) + Padding(|b|)
  {
    var v := Sextets(b);
    var std := seq(|v|, i requires 0 <= i < |v| => StdChar(v[i]));
    assert Base64(b) == std + Padding(|b|);
    MakeUrlSafeAppend(std, Padding(|b|));
    UrlSafeOfStd(v, std);
    UrlSafeOfEquals(Padding(|b|));
  }

  lemma MakeUrlSafeAppend(s: string, t: string)
    ensures MakeUrlSafe(s + t) == MakeUrlSafe(s) + MakeUrlSafe(t)
  {
    var m := MakeUrlSafe(s + t);
    forall i | 0 <= i < |m| ensures m[i] == (MakeUrlSafe(s) + MakeUrlSafe(t))[i] {
      if i < |s| {
        assert (s + t)[i] == s[i];
      } else {
        assert (s + t)[i] == t[i - |s|];
      }
    }
  }

  lemma UrlSafeOfStd(v: seq<sextet>, std: string)
    requires |std| == |v|
    requires forall i :: 0 <= i < |v| ==> std[i] == StdChar(v[i])
    ensures MakeUrlSafe(std) == UrlChars(v)
  {
    forall i | 0 <= i < |v| ensures MakeUrlSafe(std)[i] == UrlChars(v)[i] {
      SafeOfStd(v[i]);
    }
  }

  lemma UrlSafeOfEquals(p: string)
    requires forall i :: 0 <= i < |p| ==> p[i] == '='
    ensures MakeUrlSafe(p) == p
  {
  }

  lemma StripEquals(u: string, pad: string)
    requires u == [] || u[|u| - 1] != '='
    requires forall i :: 0 <= i < |pad| ==> pad[i] == '='
    ensures StripTrailingEquals(u + pad) == u
    decreases |pad|
  {
    if pad != [] {
      assert (u + pad)[..|u + pad| - 1] == u + pad[..|pad| - 1];
      StripEquals(u, pad[..|pad| - 1]);
    } else {
      assert u + pad == u;
    }
  }

  /** The source's chain of replacements is exactly unpadded base64url. */
  lemma Base64UrlEncodeIsUnpadded(b: seq<byte>)
    ensures Base64UrlEncode(b) == Base64UrlUnpadded(b)
  {
    UrlSafeOfPadded(b);
    var u := Base64UrlUnpadded(b);
    assert u == [] || u[|u| - 1] != '=' by {
      if u != [] { assert IsUrlSafeChar(u[|u| - 1]); }
    }
    StripEquals(u, Padding(|b|));
  }

  /** Every character of the encoding is in `[A-Za-z0-9_-]` and its length is
      `4 * (n / 3)` plus 0, 2 or 3. */
  lemma Base64UrlEncodeShape(b: seq<byte>)
    ensures IsUrlSafe(Base64UrlEncode(b))
    ensures |Base64UrlEncode(b)| == EncodedLength(|b|)
  {
    Base64UrlEncodeIsUnpadded(b);
    SextetsFromLength(b, 0);
  }

  /** The unit-test vector: the bytes of "test" encode to "dGVzdA". */
  lemma Base64UrlEncodeExample(b: seq<byte>)
    requires b == [116, 101, 115, 116]
    ensures Base64UrlEncode(b) == "dGVzdA"
  {
    assert SextetsFrom(b, 3) == [29, 0];
    assert Sextets(b) == [29, 6, 21, 51] + SextetsFrom(b, 3);
    Base64UrlEncodeIsUnpadded(b);
  }

  // ---------------------------------------------------------------------------------------
  // PKCE

  /** `generateCodeVerifier(length)`, with the `length` random bytes given. */
  function GenerateCodeVerifier(length: nat, random: seq<byte>): (v: string)
    requires |random| == length
  {
    var e := Base64UrlEncode(random);
    if length <= |e| then e[..length] else e
  }

  /** The verifier has exactly the requested length, uses only `[A-Za-z0-9_-]`, and is the
      start of the encoding of the random bytes. */
  lemma CodeVerifierShape(length: nat, random: seq<byte>)
    requires |random| == length
    ensures |GenerateCodeVerifier(length, random)| == length
    ensures IsUrlSafe(GenerateCodeVerifier(length, random))
    ensures GenerateCodeVerifier(length, random) == Base64UrlEncode(random)[..length]
  {
    Base64UrlEncodeShape(random);
  }

  /** The unreserved characters a verifier may use (section 4.1 of RFC 7636). */
  predicate IsUnreservedChar(c: char) {
    ('A' <= c <= 'Z') || ('a' <= c <= 'z') || ('0' <= c <= '9') ||
    c == '-' || c == '.' || c == '_' || c == '~'
  }

  /** `code-verifier = 43*128unreserved` of section 4.1 of RFC 7636. */
  predicate IsValidCodeVerifier(v: string) {
    43 <= |v| <= 128 && forall i :: 0 <= i < |v| ==> IsUnreservedChar(v[i])
  }

  /** The default verifier (96 random bytes) always meets section 4.1 of RFC 7636. */
  lemma DefaultVerifierIsValid(random: seq<byte>)
    requires |random| == DEFAULT_VERIFIER_LENGTH
    ensures IsValidCodeVerifier(GenerateCodeVerifier(DEFAULT_VERIFIER_LENGTH, random))
  {
    CodeVerifierShape(DEFAULT_VERIFIER_LENGTH, random);
  }

  /** `generateCodeChallenge(verifier)`: base64url of the SHA-256 digest of the UTF-8 bytes
      of the verifier, the `S256` method of section 4.2 of RFC 7636. The digest function is a
      parameter. */
  function GenerateCodeChallenge(verifier: string, sha256: seq<byte> -> seq<byte>): string
  {
    Base64UrlEncode(sha256(Utf8Encode(verifier)))
  }

  /** A 32-byte digest always gives a 43-character base64url challenge. */
  lemma CodeChallengeShape(verifier: string, sha256: seq<byte> -> seq<byte>)
    requires |sha256(Utf8Encode(verifier))| == 32
    ensures |GenerateCodeChallenge(verifier, sha256)| == 43
    ensures IsUrlSafe(GenerateCodeChallenge(verifier, sha256))
  {
    Base64UrlEncodeShape(sha256(Utf8Encode(verifier)));
  }

  const APPENDIX_B_VERIFIER: string := "dBjftJeZ4CVP-mB92K27uhbUJU1p1r_wW1gFWFOEjXk"

  /** The Appendix B fixture of RFC 7636: any SHA-256 that maps the verifier's bytes to the
      published digest yields the published challenge. */
  lemma CodeChallengeAppendixB(sha256: seq<byte> -> seq<byte>)
    requires IsAppendixBDigest(sha256(Utf8Encode(APPENDIX_B_VERIFIER)))
    ensures GenerateCodeChallenge(APPENDIX_B_VERIFIER, sha256) == "E9Melhoa2OwvFrEMTJguCHaoeK1t8URWbuGJSstw-cM"
  {
    AppendixBDigestEncoding(sha256(Utf8Encode(APPENDIX_B_VERIFIER)));
  }

  /** The SHA-256 digest of the Appendix B verifier of RFC 7636, byte by byte. */
  predicate IsAppendixBDigest(d: seq<byte>) {
    |d| == 32 &&
    d[0] == 19 && d[1] == 211 && d[2] == 30 && d[3] == 150 && d[4] == 26 && d[5] == 26 && d[6] == 216 && d[7] == 236 &&
    d[8] == 47 && d[9] == 22 && d[10] == 177 && d[11] == 12 && d[12] == 76 && d[13] == 152 && d[14] == 46 && d[15] == 8 &&
    d[16] == 118 && d[17] == 168 && d[18] == 120 && d[19] == 173 && d[20] == 109 && d[21] == 241 && d[22] == 68 && d[23] == 86 &&
    d[24] == 110 && d[25] == 225 && d[26] == 137 && d[27] == 74 && d[28] == 203 && d[29] == 112 && d[30] == 249 && d[31] == 195
  }

  /** A group of three bytes from index `i` on gives the four characters of its 6-bit
      values, followed by the encoding of the bytes after it. */
  lemma GroupChars(d: seq<byte>, i: nat, v: seq<sextet>, chars: string)
    requires i + 3 <= |d|
    requires |v| == 4
    requires v[0] as int == d[i] as int / 4
    requires v[1] as int == (d[i] as int % 4) * 16 + d[i + 1] as int / 16
    requires v[2] as int == (d[i + 1] as int % 16) * 4 + d[i + 2] as int / 64
    requires v[3] as int == d[i + 2] as int % 64
    requires UrlChars(v) == chars
    ensures UrlChars(SextetsFrom(d, i)) == chars + UrlChars(SextetsFrom(d, i + 3))
  {
    assert SextetsFrom(d, i) == v + SextetsFrom(d, i + 3);
    UrlCharsAppend(v, SextetsFrom(d, i + 3));
  }

  /** Each three-byte group of the published digest, with its four characters. */
  lemma AppendixBGroup0(d: seq<byte>)
    requires |d| == 32 && d[0] == 19 && d[1] == 211 && d[2] == 30
    ensures UrlChars(SextetsFrom(d, 0)) == "E9Me" + UrlChars(SextetsFrom(d, 3))
  {
    GroupChars(d, 0, [4, 61, 12, 30], "E9Me");
  }

  lemma AppendixBGroup3(d: seq<byte>)
    requires |d| == 32 && d[3] == 150 && d[4] == 26 && d[5] == 26
    ensures UrlChars(SextetsFrom(d, 3)) == "lhoa" + UrlChars(SextetsFrom(d, 6))
  {
    GroupChars(d, 3, [37, 33, 40, 26], "lhoa");
  }

  lemma AppendixBGroup6(d: seq<byte>)
    requires |d| == 32 && d[6] == 216 && d[7] == 236 && d[8] == 47
    ensures UrlChars(SextetsFrom(d, 6)) == "2Owv" + UrlChars(SextetsFrom(d, 9))
  {
    GroupChars(d, 6, [54, 14, 48, 47], "2Owv");
  }

  lemma AppendixBGroup9(d: seq<byte>)
    requires |d| == 32 && d[9] == 22 && d[10] == 177 && d[11] == 12
    ensures UrlChars(SextetsFrom(d, 9)) == "FrEM" + UrlChars(SextetsFrom(d, 12))
  {
    GroupChars(d, 9, [5, 43, 4, 12], "FrEM");
  }

  lemma AppendixBGroup12(d: seq<byte>)
    requires |d| == 32 && d[12] == 76 && d[13] == 152 && d[14] == 46
    ensures UrlChars(SextetsFrom(d, 12)) == "TJgu" + UrlChars(SextetsFrom(d, 15))
  {
    GroupChars(d, 12, [19, 9, 32, 46], "TJgu");
  }

  lemma AppendixBGroup15(d: seq<byte>)
    requires |d| == 32 && d[15] == 8 && d[16] == 118 && d[17] == 168
    ensures UrlChars(SextetsFrom(d, 15)) == "CHao" + UrlChars(SextetsFrom(d, 18))
  {
    GroupChars(d, 15, [2, 7, 26, 40], "CHao");
  }

  lemma AppendixBGroup18(d: seq<byte>)
    requires |d| == 32 && d[18] == 120 && d[19] == 173 && d[20] == 109
    ensures UrlChars(SextetsFrom(d, 18)) == "eK1t" + UrlChars(SextetsFrom(d, 21))
  {
    GroupChars(d, 18, [30, 10, 53, 45], "eK1t");
  }

  lemma AppendixBGroup21(d: seq<byte>)
    requires |d| == 32 && d[21] == 241 && d[22] == 68 && d[23] == 86
    ensures UrlChars(SextetsFrom(d, 21)) == "8URW" + UrlChars(SextetsFrom(d, 24))
  {
    GroupChars(d, 21, [60, 20, 17, 22], "8URW");
  }

  lemma AppendixBGroup24(d: seq<byte>)
    requires |d| == 32 && d[24] == 110 && d[25] == 225 && d[26] == 137
    ensures UrlChars(SextetsFrom(d, 24)) == "buGJ" + UrlChars(SextetsFrom(d, 27))
  {
    GroupChars(d, 24, [27, 46, 6, 9], "buGJ");
  }

  lemma AppendixBGroup27(d: seq<byte>)
    requires |d| == 32 && d[27] == 74 && d[28] == 203 && d[29] == 112
    ensures UrlChars(SextetsFrom(d, 27)) == "Sstw" + UrlChars(SextetsFrom(d, 30))
  {
    GroupChars(d, 27, [18, 44, 45, 48], "Sstw");
  }

  /** The characters of the digest's last four groups. */
  lemma AppendixBLastGroups(d: seq<byte>)
    requires IsAppendixBDigest(d)
    ensures UrlChars(SextetsFrom(d, 21)) == "8URWbuGJSstw-cM"
  {
    assert UrlChars(SextetsFrom(d, 30)) == "-cM" by {
      assert SextetsFrom(d, 30) == [62, 28, 12];
    }
    AppendixBGroup27(d);
    AppendixBGroup24(d);
    AppendixBGroup21(d);
    LastGroupsText();
  }

  lemma LastGroupsText()
    ensures "8URW" + ("buGJ" + ("Sstw" + "-cM")) == "8URWbuGJSstw-cM"
  {
  }

  /** The characters of groups four to six of the digest. */
  lemma AppendixBMiddleGroups(d: seq<byte>)
    requires IsAppendixBDigest(d)
    ensures UrlChars(SextetsFrom(d, 12)) == "TJguCHaoeK1t" + UrlChars(SextetsFrom(d, 21))
  {
    AppendixBGroup18(d);
    AppendixBGroup15(d);
    AppendixBGroup12(d);
    var rest := UrlChars(SextetsFrom(d, 21));
    assert "TJgu" + ("CHao" + ("eK1t" + rest)) == ("TJgu" + "CHao" + "eK1t") + rest;
    MiddleGroupsText();
  }

  lemma MiddleGroupsText()
    ensures "TJgu" + "CHao" + "eK1t" == "TJguCHaoeK1t"
  {
  }

  /** The characters of the digest's first four groups. */
  lemma AppendixBFirstGroups(d: seq<byte>)
    requires IsAppendixBDigest(d)
    ensures UrlChars(SextetsFrom(d, 0)) == "E9Melhoa2OwvFrEM" + UrlChars(SextetsFrom(d, 12))
  {
    AppendixBGroup9(d);
    AppendixBGroup6(d);
    AppendixBGroup3(d);
    AppendixBGroup0(d);
    var rest := UrlChars(SextetsFrom(d, 12));
    assert "E9Me" + ("lhoa" + ("2Owv" + ("FrEM" + rest))) == ("E9Me" + "lhoa" + "2Owv" + "FrEM") + rest;
    FirstGroupsText();
  }

  lemma FirstGroupsText()
    ensures "E9Me" + "lhoa" + "2Owv" + "FrEM" == "E9Melhoa2OwvFrEM"
  {
  }

  /** The published digest encodes to the published challenge. */
  lemma AppendixBDigestEncoding(d: seq<byte>)
    requires IsAppendixBDigest(d)
    ensures Base64UrlEncode(d) == "E9Melhoa2OwvFrEMTJguCHaoeK1t8URWbuGJSstw-cM"
  {
    AppendixBLastGroups(d);
    AppendixBMiddleGroups(d);
    AppendixBFirstGroups(d);
    Base64UrlEncodeIsUnpadded(d);
    ChallengeTail();
    ChallengeText();
  }

  lemma ChallengeTail()
    ensures "TJguCHaoeK1t" + "8URWbuGJSstw-cM" == "TJguCHaoeK1t8URWbuGJSstw-cM"
  {
  }

  lemma ChallengeText()
    ensures "E9Melhoa2OwvFrEM" + "TJguCHaoeK1t8URWbuGJSstw-cM" == "E9Melhoa2OwvFrEMTJguCHaoeK1t8URWbuGJSstw-cM"
  {
  }
}
