/** Turning the tracks a user picked into printable cards: one card per track, in order, with
    a card id made unique by the track's position. */
module CardBuilder {
  import opened Wrappers
  import opened JsText
  import opened SpotifyTypes
  import TextEncoding
  import SpotifyParser

  const TRACK_URI_PREFIX: string := "spotify:track:"

  /** The text the year is read from: the release date up to its first `-`, or `Unknown` when
      the track has no release date. */
  function YearText(releaseDate: string): string {
    if releaseDate != "" then TextEncoding.Split(releaseDate, '-')[0] else "Unknown"
  }

  /** `parseInt(yearText, 10) || 0`: NaN and 0 both give 0. */
  function ReleaseYear(releaseDate: string): int {
    ParseInt(YearText(releaseDate)).GetOr(0)
  }

  function ArtistNames(artists: seq<Artist>): (names: seq<string>)
    ensures |names| == |artists|
    ensures forall i :: 0 <= i < |artists| ==> names[i] == artists[i].name
  {
    seq(|artists|, i requires 0 <= i < |artists| => artists[i].name)
  }

  /** The card of the track at position `index`. */
  function CardOf(track: Track, index: nat): Card {
    Card(
      id := track.id + "-" + NatToString(index),
      title := track.name,
      artist := Join(ArtistNames(track.artists), ", "),
      year := ReleaseYear(track.album.releaseDate),
      spotifyUri := TRACK_URI_PREFIX + track.id)
  }

  /** `buildCardsFromTracks(tracks)`. */
  function BuildCards(tracks: seq<Track>): (cards: seq<Card>)
    ensures |cards| == |tracks|
    ensures forall i :: 0 <= i < |tracks| ==> cards[i].title == tracks[i].name
    ensures forall i :: 0 <= i < |tracks| ==> cards[i].id == tracks[i].id + "-" + NatToString(i)
    ensures forall i :: 0 <= i < |tracks| ==> cards[i].artist == Join(ArtistNames(tracks[i].artists), ", ")
    ensures forall i :: 0 <= i < |tracks| ==> cards[i].year == ReleaseYear(tracks[i].album.releaseDate)
    ensures forall i :: 0 <= i < |tracks| ==> cards[i].spotifyUri == TRACK_URI_PREFIX + tracks[i].id
  {
    seq(|tracks|, i requires 0 <= i < |tracks| => CardOf(tracks[i], i))
  }

  /** The artist line of a card starts with the track's first artist, and is exactly that name
      when the track has one artist. */
  lemma BuiltCardArtist(tracks: seq<Track>, i: nat)
    requires i < |tracks| && tracks[i].artists != []
    ensures var artist := BuildCards(tracks)[i].artist;
      artist[..|tracks[i].artists[0].name|] == tracks[i].artists[0].name &&
      (|tracks[i].artists| == 1 ==> artist == tracks[i].artists[0].name)
  {
    var names := ArtistNames(tracks[i].artists);
    if |names| > 1 {
      assert Join(names, ", ") == names[0] + ", " + Join(names[1..], ", ");
    }
  }

  // ---------------------------------------------------------------------------------------
  // Card ids

  predicate DashFree(s: string) {
    forall i :: 0 <= i < |s| ==> s[i] != '-'
  }

  /** In `a-d` with no `-` in `d`, the last `-` stands just before `d`. */
  lemma LastDash(a: string, d: string)
    requires DashFree(d)
    ensures (a + "-" + d)[|a|] == '-'
    ensures forall k :: |a| < k < |a + "-" + d| ==> (a + "-" + d)[k] != '-'
  {
  }

  /** Whatever precedes the last `-`, the text after it is determined by the whole. */
  lemma AfterLastDash(a: string, d: string, b: string, e: string)
    requires DashFree(d) && DashFree(e)
    requires a + "-" + d == b + "-" + e
    ensures d == e
  {
    var s := a + "-" + d;
    LastDash(a, d);
    LastDash(b, e);
    assert |a| == |b|;
    assert d == s[|a| + 1..] == e;
  }

  /** Two cards of one build never share an id, even when the same track was picked twice. */
  lemma CardIdsDistinct(tracks: seq<Track>, i: nat, j: nat)
    requires i < |tracks| && j < |tracks| && i != j
    ensures BuildCards(tracks)[i].id != BuildCards(tracks)[j].id
  {
    var cards := BuildCards(tracks);
    if cards[i].id == cards[j].id {
      AfterLastDash(tracks[i].id, NatToString(i), tracks[j].id, NatToString(j));
      NatToStringInjective(i, j);
    }
  }

  // ---------------------------------------------------------------------------------------
  // Years

  /** The year text of a date that starts with a year is that year's digits. */
  lemma YearTextOf(year: nat, rest: string)
    requires rest == [] || rest[0] == '-'
    ensures YearText(NatToString(year) + rest) == NatToString(year)
  {
    var digits := NatToString(year);
    assert TextEncoding.Free(digits, '-');
    if rest == [] {
      TextEncoding.SplitFree(digits, '-', []);
      assert digits + rest == digits;
    } else {
      TextEncoding.SplitFree(digits, '-', rest[1..]);
      assert digits + rest == digits + ['-'] + rest[1..];
    }
  }

  /** A release date that starts with a year, whole or followed by `-month-day`, gives that
      year. */
  lemma ReleaseYearOf(year: nat, rest: string)
    requires rest == [] || rest[0] == '-'
    ensures ReleaseYear(NatToString(year) + rest) == year
  {
    YearTextOf(year, rest);
    ParseIntOfIntToString(year, "");
    assert IntToString(year) + "" == NatToString(year);
  }

  /** A card of a track released in `year` (the date `YYYY` or `YYYY-…`) shows that year. */
  lemma BuiltCardYear(tracks: seq<Track>, i: nat, year: nat, rest: string)
    requires i < |tracks| && tracks[i].album.releaseDate == NatToString(year) + rest
    requires rest == [] || rest[0] == '-'
    ensures BuildCards(tracks)[i].year == year
  {
    ReleaseYearOf(year, rest);
  }

  /** A track without a release date, or whose date does not start with a digit, sign or
      whitespace, gets year 0. */
  lemma ReleaseYearMissing(releaseDate: string)
    requires releaseDate == [] || IsAsciiLetter(releaseDate[0])
    ensures ReleaseYear(releaseDate) == 0
  {
    var text := YearText(releaseDate);
    if releaseDate != [] {
      SplitStartsWith(releaseDate);
    } else {
      assert IsAsciiLetter("Unknown"[0]);
    }
    LetterIsNaN(text);
  }

  lemma LetterIsNaN(text: string)
    requires text != [] && IsAsciiLetter(text[0])
    ensures ParseInt(text).None?
  {
    assert TrimStart(text) == text;
  }

  /** The first field of a split that does not start with the separator starts with the text's
      first character. */
  lemma SplitStartsWith(s: string)
    requires s != [] && s[0] != '-'
    ensures TextEncoding.Split(s, '-')[0] != [] && TextEncoding.Split(s, '-')[0][0] == s[0]
  {
  }

  // ---------------------------------------------------------------------------------------
  // The code on the card

  /** Scanning the code printed from a card gives back the id of the card's track. */
  lemma CardUriScans(track: Track, index: nat)
    requires track.id != [] && AllAlnum(track.id)
    ensures SpotifyParser.ParseTrackFromScan(CardOf(track, index).spotifyUri) == Some(track.id)
  {
    assert TRACK_URI_PREFIX == SpotifyParser.URI_PREFIX;
    SpotifyParser.ParseUri(TRACK_URI_PREFIX, track.id);
  }

  /** Scanning the code printed on card `i` of a build gives back track `i`'s id. */
  lemma BuiltCardScans(tracks: seq<Track>, i: nat)
    requires i < |tracks| && tracks[i].id != [] && AllAlnum(tracks[i].id)
    ensures SpotifyParser.ParseTrackFromScan(BuildCards(tracks)[i].spotifyUri) == Some(tracks[i].id)
  {
    CardUriScans(tracks[i], i);
  }
}
