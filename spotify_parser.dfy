/** Reading a track id from a scanned QR code: either a `spotify:track:` URI or an
    `open.spotify.com/track/` web link. The two regular expressions are written out as the
    match a JavaScript engine performs: the URI form is anchored at both ends, the link form
    is searched for from the left. */
module SpotifyParser {
  import opened Wrappers
  import opened JsText

  const URI_PREFIX: string := "spotify:track:"
  const URL_MARKER: string := "open.spotify.com/track/"

  /** The longest leading run of `[A-Za-z0-9]`, as a greedy `[A-Za-z0-9]+` takes it. */
  function AlnumRun(s: string): (r: string)
    ensures |r| <= |s| && r == s[..|r|] && AllAlnum(r)
    ensures |r| < |s| ==> !IsAsciiAlnum(s[|r|])
    decreases |s|
  {
    if s == [] || !IsAsciiAlnum(s[0]) then ""
    else
      var r := [s[0]] + AlnumRun(s[1..]);
      assert r == s[..|r|];
      r
  }

  lemma AlnumRunOf(id: string, tail: string)
    requires AllAlnum(id)
    requires tail == [] || !IsAsciiAlnum(tail[0])
    ensures AlnumRun(id + tail) == id
    decreases |id|
  {
    if id == [] {
      assert id + tail == tail;
    } else {
      assert (id + tail)[1..] == id[1..] + tail;
      AlnumRunOf(id[1..], tail);
    }
  }

  /** `/^spotify:track:([A-Za-z0-9]+)$/i`: the whole text is the prefix in any case followed
      by one or more letters and digits. */
  function UriMatch(text: string): Option<string> {
    if |text| > |URI_PREFIX| && EqualsIgnoringCase(text[..|URI_PREFIX|], URI_PREFIX) && AllAlnum(text[|URI_PREFIX|..])
    then Some(text[|URI_PREFIX|..])
    else None
  }

  /** `/open\.spotify\.com\/track\/([A-Za-z0-9]+)(?:\?|$|\/)/i` matches at position `p`: the
      marker in any case, a non-empty run of letters and digits, then `?`, `/` or the end.
      Backtracking into the run cannot help, since a shorter run is followed by a letter or
      digit. */
  predicate UrlMatchAt(text: string, p: nat) {
    p + |URL_MARKER| <= |text| && EqualsIgnoringCase(text[p..p + |URL_MARKER|], URL_MARKER) &&
    var run := AlnumRun(text[p + |URL_MARKER|..]);
    var e := p + |URL_MARKER| + |run|;
    run != [] && (e == |text| || text[e] == '?' || text[e] == '/')
  }

  /** The captured group of a match at `p`. */
  function UrlRunAt(text: string, p: nat): string
    requires p + |URL_MARKER| <= |text|
  {
    AlnumRun(text[p + |URL_MARKER|..])
  }

  /** The first position from `p` on where the link expression matches. */
  function FirstUrlMatch(text: string, p: nat): (r: Option<nat>)
    requires p <= |text|
    ensures r.Some? ==> p <= r.value && UrlMatchAt(text, r.value)
    ensures r.Some? ==> forall q :: p <= q < r.value ==> !UrlMatchAt(text, q)
    ensures r.None? ==> forall q :: p <= q ==> !UrlMatchAt(text, q)
    decreases |text| - p
  {
    if UrlMatchAt(text, p) then Some(p)
    else if p == |text| then None
    else FirstUrlMatch(text, p + 1)
  }

  /** `text.match(link expression)?.[1]`: the group of the leftmost match. */
  function UrlMatch(text: string): (r: Option<string>)
    ensures r.Some? <==> exists p :: UrlMatchAt(text, p)
    ensures r.Some? ==>
      exists p :: UrlMatchAt(text, p) && (forall q: nat :: q < p ==> !UrlMatchAt(text, q)) && r.value == UrlRunAt(text, p)
  {
    match FirstUrlMatch(text, 0)
    case None => None
    case Some(p) => Some(UrlRunAt(text, p))
  }

  /** `parseSpotifyTrackFromScan(value)`: the id of the trimmed text, by the URI form first
      and then the link form; what it returns is always a non-empty run of letters and
      digits. */
  function ParseTrackFromScan(value: string): (r: Option<string>)
    ensures r.Some? ==> r.value != [] && AllAlnum(r.value)
  {
    var text := Trim(value);
    var uri := UriMatch(text);
    if uri.Some? then uri
    else UrlMatch(text)
  }

  /** Whitespace around the scanned text never changes the result. */
  lemma ParseIgnoresPadding(ws1: string, s: string, ws2: string)
    requires AllWhitespace(ws1) && AllWhitespace(ws2)
    ensures ParseTrackFromScan(ws1 + s + ws2) == ParseTrackFromScan(s)
  {
    TrimPadded(ws1, s, ws2);
  }

  /** A URI with the prefix in any case gives back its id. */
  lemma ParseUri(prefix: string, id: string)
    requires EqualsIgnoringCase(prefix, URI_PREFIX)
    requires id != [] && AllAlnum(id)
    ensures ParseTrackFromScan(prefix + id) == Some(id)
  {
    var text := prefix + id;
    assert text[..|URI_PREFIX|] == prefix;
    assert text[|URI_PREFIX|..] == id;
    assert UriMatch(text) == Some(id);
    assert FoldCase(prefix[0]) == FoldCase(URI_PREFIX[0]) == 'S';
    assert text[0] == prefix[0];
    assert text[|text| - 1] == id[|id| - 1];
    TrimOfTrimmed(text);
  }

  /** No text holding the link marker is a URI: the marker's `.` and `/` are neither letters
      nor digits nor characters of the URI prefix. */
  lemma MarkerIsNoUri(text: string, p: nat)
    requires p + |URL_MARKER| <= |text| && EqualsIgnoringCase(text[p..p + |URL_MARKER|], URL_MARKER)
    ensures UriMatch(text).None?
  {
    var dot := p + 4;
    assert text[p..p + |URL_MARKER|][4] == text[dot];
    assert FoldCase(text[dot]) == '.';
    if dot < |URI_PREFIX| {
      assert text[..|URI_PREFIX|][dot] == text[dot];
    } else {
      assert text[|URI_PREFIX|..][dot - |URI_PREFIX|] == text[dot];
    }
  }

  /** The link form yields the group of its leftmost match, when the text is trimmed and is
      no URI. */
  lemma ParseLeftmostLink(text: string, p: nat)
    requires Trim(text) == text && UriMatch(text).None?
    requires UrlMatchAt(text, p)
    requires forall q: nat :: q < p ==> !UrlMatchAt(text, q)
    ensures ParseTrackFromScan(text) == Some(UrlRunAt(text, p))
  {
    UrlMatchLeftmost(text, p);
    ParseOfNoUri(text);
  }

  lemma ParseOfNoUri(text: string)
    requires Trim(text) == text && UriMatch(text).None?
    ensures ParseTrackFromScan(text) == UrlMatch(text)
  {
  }

  /** The link expression yields the group at its leftmost matching position. */
  lemma UrlMatchLeftmost(text: string, p: nat)
    requires UrlMatchAt(text, p)
    requires forall q: nat :: q < p ==> !UrlMatchAt(text, q)
    ensures UrlMatch(text) == Some(UrlRunAt(text, p))
  {
    FirstUrlMatchIs(text, 0, p);
  }

  lemma {:induction false} FirstUrlMatchIs(text: string, k: nat, p: nat)
    requires k <= p && UrlMatchAt(text, p)
    requires forall q: nat :: k <= q < p ==> !UrlMatchAt(text, q)
    ensures FirstUrlMatch(text, k) == Some(p)
    decreases p - k
  {
    if k < p {
      FirstUrlMatchIs(text, k + 1, p);
    }
  }

  /** The marker followed by `id` and then `tail` matches at the marker's position. */
  lemma LinkMatchesAt(pre: string, id: string, tail: string)
    requires id != [] && AllAlnum(id)
    requires tail == [] || tail[0] == '?' || tail[0] == '/'
    ensures UrlMatchAt(pre + URL_MARKER + id + tail, |pre|)
    ensures UrlRunAt(pre + URL_MARKER + id + tail, |pre|) == id
  {
    var text := pre + URL_MARKER + id + tail;
    var p := |pre|;
    assert text[p..p + |URL_MARKER|] == URL_MARKER;
    assert text[p + |URL_MARKER|..] == id + tail;
    AlnumRunOf(id, tail);
  }

  /** A link whose text before the marker holds no `o` gives back the run after the marker,
      when `?`, `/` or nothing follows it. */
  lemma ParseLink(pre: string, id: string, tail: string)
    requires forall i :: 0 <= i < |pre| ==> FoldCase(pre[i]) != 'O'
    requires pre == [] || !IsJsWhitespace(pre[0])
    requires id != [] && AllAlnum(id)
    requires tail == [] || tail[0] == '?' || tail[0] == '/'
    requires tail == [] || !IsJsWhitespace(tail[|tail| - 1])
    ensures ParseTrackFromScan(pre + URL_MARKER + id + tail) == Some(id)
  {
    var text := pre + URL_MARKER + id + tail;
    var p := |pre|;
    LinkMatchesAt(pre, id, tail);
    NoMatchBefore(text, p);
    assert text[0] == (if pre == [] then 'o' else pre[0]);
    assert text[|text| - 1] == (if tail == [] then id[|id| - 1] else tail[|tail| - 1]);
    TrimOfTrimmed(text);
    MarkerIsNoUri(text, p);
    ParseLeftmostLink(text, p);
  }

  /** No match starts where no `o` stands. */
  lemma NoMatchBefore(text: string, p: nat)
    requires p <= |text|
    requires forall i :: 0 <= i < p ==> FoldCase(text[i]) != 'O'
    ensures forall q: nat :: q < p ==> !UrlMatchAt(text, q)
  {
    forall q: nat | q < p ensures !UrlMatchAt(text, q) {
      if q + |URL_MARKER| <= |text| {
        assert text[q..q + |URL_MARKER|][0] == text[q];
      }
    }
  }

  // ---------------------------------------------------------------------------------------
  // The documented examples

  lemma UriExample(input: string)
    requires input == "spotify:track:1A2B3C4D"
    ensures ParseTrackFromScan(input) == Some("1A2B3C4D")
  {
    assert input == URI_PREFIX + "1A2B3C4D";
    ParseUri(URI_PREFIX, "1A2B3C4D");
  }

  lemma LinkWithQueryExample(input: string, site: string, id: string, query: string)
    requires input == "https://open.spotify.com/track/7ouMYWpwJ422jRcDASZB7P?si=abc123"
    requires site == "https://" && id == "7ouMYWpwJ422jRcDASZB7P" && query == "?si=abc123"
    ensures ParseTrackFromScan(input) == Some(id)
  {
    QueryLinkPieces(input, site, id, query);
    ParseLink(site, id, query);
  }

  lemma LinkStart(site: string)
    requires site == "https://"
    ensures site + URL_MARKER == "https://open.spotify.com/track/"
  {
  }

  lemma QueryLinkPieces(input: string, site: string, id: string, query: string)
    requires input == "https://open.spotify.com/track/7ouMYWpwJ422jRcDASZB7P?si=abc123"
    requires site == "https://" && id == "7ouMYWpwJ422jRcDASZB7P" && query == "?si=abc123"
    ensures input == site + URL_MARKER + id + query
  {
    LinkStart(site);
    var link := site + URL_MARKER;
    assert link + id == "https://open.spotify.com/track/7ouMYWpwJ422jRcDASZB7P";
  }

  lemma SlashLinkExample(input: string, site: string, id: string, slash: string)
    requires input == "https://open.spotify.com/track/6rqhFgbbKwnb9MLmUQDhG6/"
    requires site == "https://" && id == "6rqhFgbbKwnb9MLmUQDhG6" && slash == "/"
    ensures ParseTrackFromScan(input) == Some(id)
  {
    SlashLinkPieces(input, site, id, slash);
    ParseLink(site, id, slash);
  }

  lemma SlashLinkPieces(input: string, site: string, id: string, slash: string)
    requires input == "https://open.spotify.com/track/6rqhFgbbKwnb9MLmUQDhG6/"
    requires site == "https://" && id == "6rqhFgbbKwnb9MLmUQDhG6" && slash == "/"
    ensures input == site + URL_MARKER + id + slash
  {
    LinkStart(site);
    var link := site + URL_MARKER;
    assert link + id == "https://open.spotify.com/track/6rqhFgbbKwnb9MLmUQDhG6";
  }

  /** The same link with two spaces on either side. */
  lemma PaddedLinkExample(link: string, ws: string)
    requires link == "https://open.spotify.com/track/6rqhFgbbKwnb9MLmUQDhG6/" && ws == "  "
    ensures ParseTrackFromScan(ws + link + ws) == Some("6rqhFgbbKwnb9MLmUQDhG6")
  {
    ParseIgnoresPadding(ws, link, ws);
    SlashLinkExample(link, "https://", "6rqhFgbbKwnb9MLmUQDhG6", "/");
  }

  /** A text in which no `o` starts early enough for the marker has no link match. */
  lemma NoMarker(text: string)
    requires forall q :: 0 <= q < |text| && q + |URL_MARKER| <= |text| ==> FoldCase(text[q]) != 'O'
    ensures UrlMatch(text).None?
  {
    forall p: nat | p + |URL_MARKER| <= |text| ensures !UrlMatchAt(text, p) {
      assert text[p..p + |URL_MARKER|][0] == text[p];
    }
  }

  /** A trimmed text that is no URI and has no `o` early enough for the marker gives no id. */
  lemma ParseNothing(text: string)
    requires text == [] || (!IsJsWhitespace(text[0]) && !IsJsWhitespace(text[|text| - 1]))
    requires UriMatch(text).None?
    requires forall q :: 0 <= q < |text| && q + |URL_MARKER| <= |text| ==> FoldCase(text[q]) != 'O'
    ensures ParseTrackFromScan(text).None?
  {
    TrimOfTrimmed(text);
    NoMarker(text);
    ParseOfNoUri(text);
  }

  /** Another kind of URI, another site and the empty text give no id. */
  lemma AlbumUriExample(input: string)
    requires input == "spotify:album:1234"
    ensures ParseTrackFromScan(input).None?
  {
    assert input[..|URI_PREFIX|][8] == 'a';
    ParseNothing(input);
  }

  lemma OtherSiteExample(input: string)
    requires input == "https://example.com/not-spotify"
    ensures ParseTrackFromScan(input).None?
  {
    assert input[..|URI_PREFIX|][0] == 'h';
    ParseNothing(input);
  }

  lemma EmptyExample()
    ensures ParseTrackFromScan("").None?
  {
    ParseNothing("");
  }
}
