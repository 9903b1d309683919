/** The Spotify Web API fetchers: the paginated listings (playlist tracks, the user's playlists,
    saved tracks, album tracks), the two searches, and the album loader that looks up the
    original release of every track of a compilation with a small pool of workers.

    Every request is a parameter: a function from the URL and the `Authorization` header to
    the decoded response. The listings and the album loader are imperative, as the code is:
    `while (hasMore)` loops that append to an accumulator, and a pre-sized array of result
    slots filled by index. */
module SpotifyApi {
  import opened Wrappers
  import opened JsText
  import opened Json
  import opened SpotifyTypes
  import opened TextEncoding

  const API_BASE: string := "https://api.spotify.com/v1"
  /** The page size of the album-track listing. */
  const ALBUM_PAGE_LIMIT: int := 50
  /** The default page size of the playlist and saved-track listings. */
  const DEFAULT_LIST_LIMIT: int := 50
  /** The number of workers that resolve compilation tracks. */
  const MAX_CONCURRENT: nat := 5
  /** How many search hits are asked for when resolving one compilation track. */
  const CANDIDATE_LIMIT: string := "10"

  const PLAYLIST_TRACKS_FAILED: string := "Failed to fetch playlist tracks"
  const ALBUM_INFO_FAILED: string := "Failed to fetch album info"
  const ALBUM_TRACKS_FAILED: string := "Failed to fetch album tracks"
  const USER_PLAYLISTS_FAILED: string := "Failed to fetch user playlists"
  const SAVED_TRACKS_FAILED: string := "Failed to fetch saved tracks"

  /** The `Authorization` header every request carries. */
  function Bearer(accessToken: string): string {
    "Bearer " + accessToken
  }

  // ---------------------------------------------------------------------------------------
  // Pagination

  /** A decoded listing page: `items` (`None` when absent or `null`) and `next` (`None` when
      `null` or absent). */
  datatype Page<I> = Page(items: Option<seq<I>>, next: Option<string>)

  /** A page request is rejected (the `fetch` promise throws, with the error's message), is
      answered with `!response.ok`, or gives a page. */
  datatype PageResponse<I> = PageRejected(message: string) | PageNotOk | PageOk(page: Page<I>)

  /** Why a listing stopped short: a rejected `fetch`, whose error propagates uncaught, or a
      response that was not ok, on which the fetcher throws its own message. */
  datatype PageFailure = Rejected(message: string) | NotOk

  /** The failure a response that is not a page stands for. */
  function FailureOf<I>(response: PageResponse<I>): PageFailure
    requires !response.PageOk?
  {
    if response.PageRejected? then Rejected(response.message) else NotOk
  }

  /** The message of the error the fetcher ends with: a rejection's own, or `message` for a
      response that was not ok. */
  function ThrownBy(failure: PageFailure, message: string): (r: string)
    ensures failure.Rejected? ==> r == failure.message
    ensures failure.NotOk? ==> r == message
  {
    match failure
    case Rejected(m) => m
    case NotOk => message
  }

  /** `${path}?${new URLSearchParams({ offset, limit })}`. */
  function PageUrl(path: string, offset: int, limit: int): string {
    path + "?" + QueryString([("offset", IntToString(offset)), ("limit", IntToString(limit))])
  }

  /** The answer to request number `k`, which asks for offset `k * limit`. */
  function ResponseAt<I>(pageAt: int -> PageResponse<I>, limit: int, k: nat): PageResponse<I> {
    pageAt(k * limit)
  }

  /** A response after which the loop asks for another page. */
  predicate Continues<I>(response: PageResponse<I>) {
    response.PageOk? && response.page.next.Some?
  }

  /** The listing ends with request `last`: every earlier request was answered with a page
      that names a next page, and request `last` was not. */
  predicate EndsAt<I>(pageAt: int -> PageResponse<I>, limit: int, last: nat) {
    (forall k: nat | k < last :: Continues(ResponseAt(pageAt, limit, k))) &&
    !Continues(ResponseAt(pageAt, limit, last))
  }

  /** What one page adds: each item mapped by `extract`, the missing ones dropped. */
  function PageValues<I, T>(page: Page<I>, extract: I -> Option<T>): seq<T> {
    var items := page.items.GetOr([]);
    FilterSome(seq(|items|, i requires 0 <= i < |items| => extract(items[i])))
  }

  /** What requests `k` to `last` add, in page order, or the failure of the first of them
      that is not answered with a page. */
  function Listing<I, T>(pageAt: int -> PageResponse<I>, limit: int, extract: I -> Option<T>, k: nat, last: nat)
    : Result<seq<T>, PageFailure>
    requires k <= last
    decreases last - k
  {
    match ResponseAt(pageAt, limit, k)
    case PageRejected(m) => Failure(Rejected(m))
    case PageNotOk => Failure(NotOk)
    case PageOk(page) =>
      if k == last then Success(PageValues(page, extract))
      else
        match Listing(pageAt, limit, extract, k + 1, last)
        case Failure(e) => Failure(e)
        case Success(rest) => Success(PageValues(page, extract) + rest)
  }

  /** `values` followed by what `rest` holds, or the failure of `rest`. */
  function Prepend<T>(values: seq<T>, rest: Result<seq<T>, PageFailure>): Result<seq<T>, PageFailure> {
    match rest
    case Failure(e) => Failure(e)
    case Success(r) => Success(values + r)
  }

  /** The pagination loop shared by the listings: request `offset = 0, limit, 2 * limit, …`
      until a page names no next page, appending what each page adds. One failed request
      fails the whole listing, and nothing gathered before it is returned. */
  method FetchAllPages<I, T>(pageAt: int -> PageResponse<I>, limit: int, extract: I -> Option<T>, ghost last: nat)
    returns (r: Result<seq<T>, PageFailure>)
    requires EndsAt(pageAt, limit, last)
    ensures r == Listing(pageAt, limit, extract, 0, last)
  {
    var values: seq<T> := [];
    var offset := 0;
    var hasMore := true;
    ghost var k: nat := 0;
    match Listing(pageAt, limit, extract, 0, last) {
      case Failure(_) =>
      case Success(all) => assert [] + all == all;
    }
    while hasMore
      invariant k <= last + 1
      invariant hasMore ==> k <= last && offset == k * limit
      invariant hasMore ==>
        Listing(pageAt, limit, extract, 0, last) == Prepend(values, Listing(pageAt, limit, extract, k, last))
      invariant !hasMore ==> Listing(pageAt, limit, extract, 0, last) == Success(values)
      decreases last + 1 - k
    {
      var response := pageAt(offset);
      assert response == ResponseAt(pageAt, limit, k);
      if response.PageRejected? {
        return Failure(Rejected(response.message));
      }
      if response.PageNotOk? {
        return Failure(NotOk);
      }
      ghost var before := values;
      values := values + PageValues(response.page, extract);
      hasMore := response.page.next.Some?;
      if k < last {
        assert Continues(ResponseAt(pageAt, limit, k));
        match Listing(pageAt, limit, extract, k + 1, last) {
          case Failure(_) =>
          case Success(rest) => assert before + PageValues(response.page, extract) + rest ==
            before + (PageValues(response.page, extract) + rest);
        }
      }
      offset := offset + limit;
      k := k + 1;
    }
    return Success(values);
  }

  /** The listing is determined by the pages: it ends at one request only. */
  lemma EndsAtUnique<I>(pageAt: int -> PageResponse<I>, limit: int, m: nat, n: nat)
    requires EndsAt(pageAt, limit, m) && EndsAt(pageAt, limit, n)
    ensures m == n
  {
  }

  /** A failed request anywhere in the listing fails it as a whole. */
  lemma {:induction false} FailedPageFailsListing<I, T>(pageAt: int -> PageResponse<I>, limit: int,
                                                        extract: I -> Option<T>, k: nat, j: nat, last: nat)
    requires k <= j <= last && !ResponseAt(pageAt, limit, j).PageOk?
    ensures Listing(pageAt, limit, extract, k, last).Failure?
    decreases j - k
  {
    if k < j && ResponseAt(pageAt, limit, k).PageOk? {
      FailedPageFailsListing(pageAt, limit, extract, k + 1, j, last);
    }
  }

  /** When every request from `k` up to `j` gives a page and request `j` does not, the listing
      fails with request `j`'s failure: a rejected `fetch` with its own message. */
  lemma {:induction false} FirstFailureFailsListing<I, T>(pageAt: int -> PageResponse<I>, limit: int,
                                                          extract: I -> Option<T>, k: nat, j: nat, last: nat)
    requires k <= j <= last
    requires forall i: nat :: k <= i < j ==> ResponseAt(pageAt, limit, i).PageOk?
    requires !ResponseAt(pageAt, limit, j).PageOk?
    ensures Listing(pageAt, limit, extract, k, last) == Failure(FailureOf(ResponseAt(pageAt, limit, j)))
    decreases j - k
  {
    if k < j {
      FirstFailureFailsListing(pageAt, limit, extract, k + 1, j, last);
    }
  }

  /** A page without items that names a next page adds nothing, and the listing goes on. */
  lemma EmptyPageContinues<I, T>(pageAt: int -> PageResponse<I>, limit: int, extract: I -> Option<T>, k: nat, last: nat)
    requires k < last
    requires ResponseAt(pageAt, limit, k).PageOk? && ResponseAt(pageAt, limit, k).page.items.GetOr([]) == []
    ensures Listing(pageAt, limit, extract, k, last) == Listing(pageAt, limit, extract, k + 1, last)
  {
    assert PageValues(ResponseAt(pageAt, limit, k).page, extract) == [];
    match Listing(pageAt, limit, extract, k + 1, last)
    case Failure(_) =>
    case Success(rest) => assert [] + rest == rest;
  }

  /** A listing whose extractor keeps every item is the items themselves mapped by `f`: one
      output per item, in page order. */
  lemma {:induction false} TotalListing<I, T>(pageAt: int -> PageResponse<I>, limit: int,
                                              extract: I -> Option<T>, keep: I -> Option<I>, f: I -> T, k: nat, last: nat)
    requires k <= last
    requires forall x :: extract(x) == Some(f(x))
    requires forall x :: keep(x) == Some(x)
    ensures Listing(pageAt, limit, extract, k, last) ==
      match Listing(pageAt, limit, keep, k, last)
      case Failure(e) => Failure(e)
      case Success(items) => Success(MapSeq(items, f))
    decreases last - k
  {
    match ResponseAt(pageAt, limit, k)
    case PageRejected(_) =>
    case PageNotOk =>
    case PageOk(page) =>
      TotalPage(page, extract, keep, f);
      if k < last {
        TotalListing(pageAt, limit, extract, keep, f, k + 1, last);
        match Listing(pageAt, limit, keep, k + 1, last)
        case Failure(_) =>
        case Success(rest) =>
          MapSeqAppend(PageValues(page, keep), rest, f);
      }
  }

  lemma TotalPage<I, T>(page: Page<I>, extract: I -> Option<T>, keep: I -> Option<I>, f: I -> T)
    requires forall x :: extract(x) == Some(f(x))
    requires forall x :: keep(x) == Some(x)
    ensures PageValues(page, extract) == MapSeq(PageValues(page, keep), f)
  {
    var items := page.items.GetOr([]);
    var extracted := seq(|items|, i requires 0 <= i < |items| => extract(items[i]));
    var kept := seq(|items|, i requires 0 <= i < |items| => keep(items[i]));
    FilterSomeAll(extracted);
    FilterSomeAll(kept);
  }

  lemma MapSeqAppend<A, B>(xs: seq<A>, ys: seq<A>, f: A -> B)
    ensures MapSeq(xs + ys, f) == MapSeq(xs, f) + MapSeq(ys, f)
  {
  }

  /** `xs.map(f)`. */
  function MapSeq<A, B>(xs: seq<A>, f: A -> B): (r: seq<B>)
    ensures |r| == |xs| && forall i :: 0 <= i < |xs| ==> r[i] == f(xs[i])
  {
    seq(|xs|, i requires 0 <= i < |xs| => f(xs[i]))
  }

  /** A listing result as the fetchers return it: the values; or, for a response that was not
      ok, the fetcher's own error; or, for a rejected `fetch`, the rejection's error. */
  function OrThrow<T>(listing: Result<seq<T>, PageFailure>, message: string): (r: Result<seq<T>, string>)
    ensures r.Failure? <==> listing.Failure?
    ensures listing == Failure(NotOk) ==> r == Failure(message)
    ensures listing.Failure? && listing.error.Rejected? ==> r == Failure(listing.error.message)
    ensures r.Success? ==> r.value == listing.value
  {
    match listing
    case Failure(e) => Failure(ThrownBy(e, message))
    case Success(values) => Success(values)
  }

  /** A rejected first request ends a fetcher with the rejection's own message, whatever
      message the fetcher throws for a response that is not ok. */
  lemma RejectedFirstPage<I, T>(pageAt: int -> PageResponse<I>, limit: int, extract: I -> Option<T>,
                                last: nat, message: string)
    requires ResponseAt(pageAt, limit, 0).PageRejected?
    ensures OrThrow(Listing(pageAt, limit, extract, 0, last), message) ==
      Failure(ResponseAt(pageAt, limit, 0).message)
  {
    FirstFailureFailsListing(pageAt, limit, extract, 0, 0, last);
  }

  // ---------------------------------------------------------------------------------------
  // The listings

  /** `item.track ?? item.item ?? null`. */
  function PlaylistTrack(item: PlaylistItem): Option<Track> {
    if item.track.Some? then item.track else item.item
  }

  function SavedTrack(item: SavedTrackItem): Option<Track> {
    item.track
  }

  /** The request for one page of a playlist's tracks. */
  function PlaylistPages(accessToken: string, playlistId: string, limit: int,
                         fetch: (string, string) -> PageResponse<PlaylistItem>): int -> PageResponse<PlaylistItem> {
    offset => fetch(PageUrl(API_BASE + "/playlists/" + playlistId + "/items", offset, limit), Bearer(accessToken))
  }

  /** `getPlaylistTracks`: the tracks of every page in order; an item gives its `track`, or
      else its `item`, or nothing. */
  method GetPlaylistTracks(accessToken: string, playlistId: string, limit: int,
                           fetch: (string, string) -> PageResponse<PlaylistItem>, ghost last: nat)
    returns (r: Result<seq<Track>, string>)
    requires EndsAt(PlaylistPages(accessToken, playlistId, limit, fetch), limit, last)
    ensures r == OrThrow(Listing(PlaylistPages(accessToken, playlistId, limit, fetch), limit, PlaylistTrack, 0, last),
                         PLAYLIST_TRACKS_FAILED)
  {
    var tracks := FetchAllPages(PlaylistPages(accessToken, playlistId, limit, fetch), limit, PlaylistTrack, last);
    return OrThrow(tracks, PLAYLIST_TRACKS_FAILED);
  }

  function UserPlaylistPages(accessToken: string, limit: int,
                             fetch: (string, string) -> PageResponse<Option<Playlist>>): int -> PageResponse<Option<Playlist>> {
    offset => fetch(PageUrl(API_BASE + "/me/playlists", offset, limit), Bearer(accessToken))
  }

  function KeepPlaylist(item: Option<Playlist>): Option<Playlist> {
    item
  }

  /** `getCurrentUserPlaylists`: the playlists of every page in order, `null` items dropped.
      `limit` defaults to `DEFAULT_LIST_LIMIT` (50), which is what the library hook passes by
      leaving it out. */
  method GetCurrentUserPlaylists(accessToken: string, limit: int,
                                 fetch: (string, string) -> PageResponse<Option<Playlist>>, ghost last: nat)
    returns (r: Result<seq<Playlist>, string>)
    requires EndsAt(UserPlaylistPages(accessToken, limit, fetch), limit, last)
    ensures r == OrThrow(Listing(UserPlaylistPages(accessToken, limit, fetch), limit, KeepPlaylist, 0, last),
                         USER_PLAYLISTS_FAILED)
  {
    var playlists := FetchAllPages(UserPlaylistPages(accessToken, limit, fetch), limit, KeepPlaylist, last);
    return OrThrow(playlists, USER_PLAYLISTS_FAILED);
  }

  function SavedTrackPages(accessToken: string, limit: int,
                           fetch: (string, string) -> PageResponse<SavedTrackItem>): int -> PageResponse<SavedTrackItem> {
    offset => fetch(PageUrl(API_BASE + "/me/tracks", offset, limit), Bearer(accessToken))
  }

  /** `getCurrentUserSavedTracks`: the `track` of every item of every page in order. `limit`
      defaults to `DEFAULT_LIST_LIMIT` (50), which is what the library hook passes by leaving
      it out. */
  method GetCurrentUserSavedTracks(accessToken: string, limit: int,
                                   fetch: (string, string) -> PageResponse<SavedTrackItem>, ghost last: nat)
    returns (r: Result<seq<Track>, string>)
    requires EndsAt(SavedTrackPages(accessToken, limit, fetch), limit, last)
    ensures r == OrThrow(Listing(SavedTrackPages(accessToken, limit, fetch), limit, SavedTrack, 0, last),
                         SAVED_TRACKS_FAILED)
  {
    var tracks := FetchAllPages(SavedTrackPages(accessToken, limit, fetch), limit, SavedTrack, last);
    return OrThrow(tracks, SAVED_TRACKS_FAILED);
  }


  // ---------------------------------------------------------------------------------------
  // Searches

  /** A decoded search response: a rejected `fetch`, with the message of the error it throws;
      not ok, with the status text and the value of the body's
      `error.message` (`None` when undefined), or ok with `tracks.items` or `albums.items`
      (`None` when either is absent or `null`). */
  datatype SearchResponse<T> =
    | SearchRejected(message: string)
    | SearchNotOk(statusText: string, errorMessage: Option<Json>)
    | SearchOk(items: Option<seq<Option<T>>>)

  /** `https://api.spotify.com/v1/search?q=…&type=…`. */
  function SearchUrl(query: string, kind: string): string {
    API_BASE + "/search?" + QueryString([("q", query), ("type", kind)])
  }

  /** `Failed to search {what}: ${errorData.error?.message || response.statusText}`. */
  function SearchFailure(what: string, statusText: string, errorMessage: Option<Json>): string {
    "Failed to search " + what + ": " + (if Truthy(errorMessage) then ToJsString(errorMessage.value) else statusText)
  }

  /** The search both searches share: the hits in order with the `null` ones dropped, or the
      failure message, which prefers the body's error message to the status text. */
  function Search<T(!new)>(accessToken: string, query: string, kind: string, what: string,
                     fetch: (string, string) -> SearchResponse<T>): (r: Result<seq<T>, string>)
    ensures var response := fetch(SearchUrl(query, kind), Bearer(accessToken));
      match response
      case SearchRejected(message) => r == Failure(message)
      case SearchNotOk(statusText, errorMessage) =>
        r.Failure? &&
        (Truthy(errorMessage) ==> r.error == "Failed to search " + what + ": " + ToJsString(errorMessage.value)) &&
        (!Truthy(errorMessage) ==> r.error == "Failed to search " + what + ": " + statusText)
      case SearchOk(items) =>
        r.Success? && r.value == FilterSome(items.GetOr([])) &&
        forall t :: t in r.value <==> Some(t) in items.GetOr([])
  {
    match fetch(SearchUrl(query, kind), Bearer(accessToken))
    case SearchRejected(message) => Failure(message)
    case SearchNotOk(statusText, errorMessage) => Failure(SearchFailure(what, statusText, errorMessage))
    case SearchOk(items) =>
      var hits := FilterSome(items.GetOr([]));
      assert forall t :: t in hits <==> Some(t) in items.GetOr([]) by {
        forall t ensures t in hits <==> Some(t) in items.GetOr([]) {
          FilterSomeMembers(items.GetOr([]), t);
        }
      }
      Success(hits)
  }

  /** `searchSpotifyTracks`. */
  function SearchTracks(accessToken: string, query: string, fetch: (string, string) -> SearchResponse<Track>)
    : (r: Result<seq<Track>, string>)
    ensures r == Search(accessToken, query, "track", "tracks", fetch)
  {
    Search(accessToken, query, "track", "tracks", fetch)
  }

  /** `searchSpotifyAlbums`. */
  function SearchAlbums(accessToken: string, query: string, fetch: (string, string) -> SearchResponse<Album>)
    : (r: Result<seq<Album>, string>)
    ensures r == Search(accessToken, query, "album", "albums", fetch)
  {
    Search(accessToken, query, "album", "albums", fetch)
  }

  /** The search request carries the query and the kind, and nothing else. */
  lemma SearchUrlCarriesQuery(query: string, kind: string)
    ensures var url := SearchUrl(query, kind);
      var n := |API_BASE + "/search?"|;
      |url| >= n && url[..n] == API_BASE + "/search?" &&
      ParseQuery(url[n..]) == Utf8Pairs([("q", query), ("type", kind)])
  {
    var q := QueryString([("q", query), ("type", kind)]);
    assert SearchUrl(query, kind) == (API_BASE + "/search?") + q;
    assert ((API_BASE + "/search?") + q)[|API_BASE + "/search?"|..] == q;
    ParseQueryString([("q", query), ("type", kind)]);
  }

  // ---------------------------------------------------------------------------------------
  // Resolving a compilation track

  /** What the album loader keeps of a compilation track for the search. */
  datatype TrackInfo = TrackInfo(name: string, artists: seq<Artist>)

  /** `(item.artists ?? []).map((artist) => ({ name: artist.name ?? "" }))`. */
  function ItemArtists(item: AlbumTrackItem): (r: seq<Artist>)
    ensures |r| == |item.artists.GetOr([])|
    ensures forall i :: 0 <= i < |r| ==> r[i] == Artist(item.artists.GetOr([])[i].name.GetOr(""))
  {
    var artists := item.artists.GetOr([]);
    seq(|artists|, i requires 0 <= i < |artists| => Artist(artists[i].name.GetOr("")))
  }

  function InfoOf(item: AlbumTrackItem): TrackInfo {
    TrackInfo(item.name, ItemArtists(item))
  }

  /** `trackInfoMap` after `set(item.id, …)` for every item in order: a later item with the
      same id replaces an earlier one. */
  function InfoMap(items: seq<AlbumTrackItem>): map<string, TrackInfo>
    decreases |items|
  {
    if items == [] then map[]
    else InfoMap(items[..|items| - 1])[items[|items| - 1].id := InfoOf(items[|items| - 1])]
  }

  /** Every track id has an entry. */
  lemma {:induction false} InfoMapHasId(items: seq<AlbumTrackItem>, i: nat)
    requires i < |items|
    ensures items[i].id in InfoMap(items)
    decreases |items|
  {
    if i < |items| - 1 {
      InfoMapHasId(items[..|items| - 1], i);
    }
  }

  /** Every entry belongs to a track id. */
  lemma {:induction false} InfoMapOnlyIds(items: seq<AlbumTrackItem>, id: string)
    requires id in InfoMap(items)
    ensures exists i :: 0 <= i < |items| && items[i].id == id
    decreases |items|
  {
    var init := items[..|items| - 1];
    if id != items[|items| - 1].id {
      InfoMapOnlyIds(init, id);
      var i :| 0 <= i < |init| && init[i].id == id;
      assert items[i].id == id;
    }
  }

  /** The entry of an id is that of the last item with the id. */
  lemma {:induction false} InfoMapLatest(items: seq<AlbumTrackItem>, i: nat)
    requires i < |items|
    requires forall j :: i < j < |items| ==> items[j].id != items[i].id
    ensures items[i].id in InfoMap(items) && InfoMap(items)[items[i].id] == InfoOf(items[i])
    decreases |items|
  {
    if i < |items| - 1 {
      var init := items[..|items| - 1];
      assert items[|items| - 1].id != items[i].id;
      InfoMapLatest(init, i);
    }
  }

  /** The search hits for one compilation track: the request failed (not ok, rejected, or an
      unreadable body), or `tracks.items` (`None` when absent or `null`). */
  datatype CandidateResponse =
    | CandidatesNotOk
    | CandidatesFailed
    | CandidatesOk(items: Option<seq<Option<SearchCandidate>>>)

  /** `${trackInfo.name} ${artistNames}`, the artist names joined by single spaces. */
  function CandidateQuery(info: TrackInfo): string {
    info.name + " " + Join(seq(|info.artists|, i requires 0 <= i < |info.artists| => info.artists[i].name), " ")
  }

  function CandidateSearchUrl(query: string): string {
    API_BASE + "/search?" + QueryString([("q", query), ("type", "track"), ("limit", CANDIDATE_LIMIT)])
  }

  /** The search for a compilation track asks for ten track hits for its name and artists. */
  lemma CandidateSearchCarriesQuery(info: TrackInfo)
    ensures var url := CandidateSearchUrl(CandidateQuery(info));
      var n := |API_BASE + "/search?"|;
      |url| >= n && url[..n] == API_BASE + "/search?" &&
      ParseQuery(url[n..]) == Utf8Pairs([("q", CandidateQuery(info)), ("type", "track"), ("limit", "10")])
  {
    var params := [("q", CandidateQuery(info)), ("type", "track"), ("limit", CANDIDATE_LIMIT)];
    var q := QueryString(params);
    assert CandidateSearchUrl(CandidateQuery(info)) == (API_BASE + "/search?") + q;
    assert ((API_BASE + "/search?") + q)[|API_BASE + "/search?"|..] == q;
    ParseQueryString(params);
  }

  /** `candidate.album?.album_type === "album"`. */
  predicate IsAlbumRelease(c: SearchCandidate) {
    c.album.Some? && c.album.value.albumType == Some("album")
  }

  /** `candidates.find(IsAlbumRelease)`, as the index of the hit. */
  function FindAlbumRelease(cands: seq<SearchCandidate>): (r: Option<nat>)
    ensures r.Some? ==> r.value < |cands| && IsAlbumRelease(cands[r.value])
    ensures r.Some? ==> forall j :: 0 <= j < r.value ==> !IsAlbumRelease(cands[j])
    ensures r.None? ==> forall j :: 0 <= j < |cands| ==> !IsAlbumRelease(cands[j])
  {
    if cands == [] then None
    else if IsAlbumRelease(cands[0]) then Some(0)
    else match FindAlbumRelease(cands[1..])
      case None => None
      case Some(i) => Some(i + 1)
  }

  /** `find(IsAlbumRelease) ?? candidates[0]`: the first album release, else the first hit,
      else nothing. */
  function PickCandidate(cands: seq<SearchCandidate>): (r: Option<SearchCandidate>)
    ensures r.None? <==> cands == []
    ensures r.Some? ==> r.value in cands
    ensures (exists i :: 0 <= i < |cands| && IsAlbumRelease(cands[i])) ==>
      IsAlbumRelease(r.value) &&
      exists i :: 0 <= i < |cands| && cands[i] == r.value && forall j :: 0 <= j < i ==> !IsAlbumRelease(cands[j])
    ensures cands != [] && (forall i :: 0 <= i < |cands| ==> !IsAlbumRelease(cands[i])) ==> r == Some(cands[0])
  {
    match FindAlbumRelease(cands)
    case Some(i) => Some(cands[i])
    case None => if cands == [] then None else Some(cands[0])
  }

  /** The track a chosen hit stands for, with `""` for a missing album name or date. */
  function CandidateTrack(c: SearchCandidate): Track {
    Track(c.id, c.name, c.artists.GetOr([]),
          AlbumInfo(if c.album.Some? then c.album.value.name.GetOr("") else "",
                    if c.album.Some? then c.album.value.releaseDate.GetOr("") else ""))
  }

  /** `resolveTrack(trackId)`: `null` for an unknown id, a failed search, or no hits; otherwise
      the chosen hit. It never throws. */
  function ResolveTrack(trackId: string, info: map<string, TrackInfo>, accessToken: string,
                        search: (string, string) -> CandidateResponse): (r: Option<Track>)
    ensures trackId !in info ==> r.None?
    ensures trackId in info ==>
      match search(CandidateSearchUrl(CandidateQuery(info[trackId])), Bearer(accessToken))
      case CandidatesOk(items) =>
        var picked := PickCandidate(FilterSome(items.GetOr([])));
        r == (if picked.Some? then Some(CandidateTrack(picked.value)) else None)
      case _ => r.None?
  {
    if trackId !in info then None
    else
      match search(CandidateSearchUrl(CandidateQuery(info[trackId])), Bearer(accessToken))
      case CandidatesNotOk => None
      case CandidatesFailed => None
      case CandidatesOk(items) =>
        match PickCandidate(FilterSome(items.GetOr([])))
        case None => None
        case Some(c) => Some(CandidateTrack(c))
  }

  // ---------------------------------------------------------------------------------------
  // The worker pool

  function Min(a: nat, b: nat): nat {
    if a <= b then a else b
  }

  /** `index >= trackIds.length ? stop : work on index`: what a worker does after claiming
      `index`. */
  function Claim(index: nat, n: nat): (r: Option<nat>)
    ensures r.Some? <==> index < n
    ensures r.Some? ==> r.value == index
  {
    if index >= n then None else Some(index)
  }

  /** How many workers are still waiting on a track. */
  function Active(waiting: seq<Option<nat>>): nat {
    if waiting == [] then 0 else (if waiting[0].Some? then 1 else 0) + Active(waiting[1..])
  }

  lemma {:induction false} ActiveUpdate(waiting: seq<Option<nat>>, w: nat, v: Option<nat>)
    requires w < |waiting|
    ensures Active(waiting[w := v]) + (if waiting[w].Some? then 1 else 0) == Active(waiting) + (if v.Some? then 1 else 0)
  {
    if w > 0 {
      ActiveUpdate(waiting[1..], w - 1, v);
      assert waiting[w := v][1..] == waiting[1..][w - 1 := v];
    }
  }

  lemma {:induction false} ActiveBounds(waiting: seq<Option<nat>>)
    ensures Active(waiting) <= |waiting|
    ensures (forall w :: 0 <= w < |waiting| ==> waiting[w].Some?) ==> Active(waiting) == |waiting|
    ensures (forall w :: 0 <= w < |waiting| ==> waiting[w].None?) ==> Active(waiting) == 0
  {
    if waiting != [] {
      ActiveBounds(waiting[1..]);
    }
  }

  /** The first worker still waiting on a track. */
  function FirstWaiting(waiting: seq<Option<nat>>): (r: Option<nat>)
    ensures r.Some? ==> r.value < |waiting| && waiting[r.value].Some?
    ensures r.None? ==> forall w :: 0 <= w < |waiting| ==> waiting[w].None?
  {
    if waiting == [] then None
    else if waiting[0].Some? then Some(0)
    else match FirstWaiting(waiting[1..])
      case None => None
      case Some(w) => Some(w + 1)
  }

  /** Some worker is waiting on track `i`. */
  predicate Waiting(waiting: seq<Option<nat>>, i: nat) {
    exists w :: 0 <= w < |waiting| && waiting[w] == Some(i)
  }

  /** A worker that finished index `index` and claimed `next`: every claimed index is still
      done or waited on. */
  lemma ClaimKeepsWaiting(before: seq<Option<nat>>, w: nat, index: nat, next: nat, n: nat, done: set<nat>)
    requires w < |before| && before[w] == Some(index)
    requires forall i :: 0 <= i < n && i < next ==> i in done || Waiting(before, i)
    ensures forall i :: 0 <= i < n && i < next + 1 ==> i in done + {index} || Waiting(before[w := Claim(next, n)], i)
  {
    var waiting := before[w := Claim(next, n)];
    forall i | 0 <= i < n && i < next + 1 && i !in done + {index} ensures Waiting(waiting, i) {
      if i == next {
        assert waiting[w] == Some(next);
      } else {
        var v :| 0 <= v < |before| && before[v] == Some(i);
        assert v != w;
        assert waiting[v] == Some(i);
      }
    }
  }

  /** Step 4 of `getAlbumTracks`: `min(5, n)` workers share the counter `nextIndex`; a worker
      claims the next index, and when its track is resolved stores it in that slot and
      claims again, until the index runs past the end. Which waiting worker finishes next is
      `pick(step)` (any other choice falls back to the first waiting one), so every
      completion order is covered. `workers` is how many workers were started, and
      `inFlight` records how many resolutions are under way once they have started and again
      after every completion: `min(5, n)` at the start and never more than five. Each index is claimed exactly once and in order, slot `i` ends up holding
      `resolve(ids[i])`, and the output does not depend on `pick`. */
  method RunWorkerPool(ids: seq<string>, resolve: string -> Option<Track>, pick: nat -> nat)
    returns (r: seq<Track>, ghost workers: nat, ghost inFlight: seq<nat>, ghost claims: seq<nat>)
    ensures workers == Min(MAX_CONCURRENT, |ids|)
    ensures inFlight != [] && inFlight[0] == workers
    ensures forall k :: 0 <= k < |inFlight| ==> inFlight[k] <= MAX_CONCURRENT
    ensures claims == seq(|ids|, i requires 0 <= i < |ids| => i)
    ensures r == FilterSome(seq(|ids|, i requires 0 <= i < |ids| => resolve(ids[i])))
  {
    var n := |ids|;
    var slots := new Option<Track>[n](_ => None);
    var nextIndex := 0;
    var count := Min(MAX_CONCURRENT, n);
    var waiting;
    waiting, claims := StartWorkers(count, n);
    workers := |waiting|;
    nextIndex := count;
    ActiveBounds(waiting);
    inFlight := [Active(waiting)];
    ghost var done: set<nat> := {};
    var step := 0;
    while FirstWaiting(waiting).Some?
      invariant |waiting| == count && slots.Length == n && count <= nextIndex
      invariant Active(waiting) + (if nextIndex > n then nextIndex - n else 0) == count
      invariant forall w :: 0 <= w < |waiting| && waiting[w].Some? ==> waiting[w].value < n
      invariant forall i :: 0 <= i < n && i < nextIndex ==> i in done || Waiting(waiting, i)
      invariant forall i :: i in done ==> i < n && slots[i] == resolve(ids[i])
      invariant claims == seq(Min(nextIndex, n), i requires 0 <= i < Min(nextIndex, n) => i)
      invariant inFlight != [] && inFlight[0] == count
      invariant forall k :: 0 <= k < |inFlight| ==> inFlight[k] <= count
      decreases n + count - nextIndex
    {
      var w := pick(step);
      if !(w < |waiting| && waiting[w].Some?) {
        w := FirstWaiting(waiting).value;
      }
      var index := waiting[w].value;
      slots[index] := resolve(ids[index]);
      var next := nextIndex;
      nextIndex := nextIndex + 1;
      ghost var before := waiting;
      waiting := waiting[w := Claim(next, n)];
      ActiveUpdate(before, w, Claim(next, n));
      ClaimKeepsWaiting(before, w, index, next, n, done);
      done := done + {index};
      if next < n {
        claims := claims + [next];
      }
      inFlight := inFlight + [Active(waiting)];
      step := step + 1;
    }
    AllResolved(waiting, done, slots[..], ids, resolve, nextIndex, count);
    r := FilterSome(slots[..]);
  }

  /** Each of the first `count` workers runs up to its first `await`: it claims the next
      index. */
  method StartWorkers(count: nat, n: nat) returns (waiting: seq<Option<nat>>, ghost claims: seq<nat>)
    requires count <= n
    ensures |waiting| == count
    ensures forall w :: 0 <= w < count ==> waiting[w] == Some(w)
    ensures claims == seq(count, i requires 0 <= i < count => i)
  {
    var nextIndex := 0;
    waiting := [];
    claims := [];
    while |waiting| < count
      invariant |waiting| <= count
      invariant nextIndex == |waiting|
      invariant forall w :: 0 <= w < |waiting| ==> waiting[w] == Some(w)
      invariant claims == seq(nextIndex, i requires 0 <= i < nextIndex => i)
    {
      var index := nextIndex;
      nextIndex := nextIndex + 1;
      waiting := waiting + [Claim(index, n)];
      claims := claims + [index];
    }
  }

  /** Once no worker waits, every slot holds its resolved track. */
  lemma AllResolved(waiting: seq<Option<nat>>, done: set<nat>, slots: seq<Option<Track>>, ids: seq<string>,
                    resolve: string -> Option<Track>, nextIndex: nat, count: nat)
    requires FirstWaiting(waiting).None? && |waiting| == count == Min(MAX_CONCURRENT, |ids|) && |slots| == |ids|
    requires Active(waiting) + (if nextIndex > |ids| then nextIndex - |ids| else 0) == count
    requires forall i :: 0 <= i < |ids| && i < nextIndex ==> i in done || Waiting(waiting, i)
    requires forall i :: i in done ==> i < |ids| && slots[i] == resolve(ids[i])
    ensures nextIndex >= |ids|
    ensures slots == seq(|ids|, i requires 0 <= i < |ids| => resolve(ids[i]))
  {
    ActiveBounds(waiting);
    forall i | 0 <= i < |ids| ensures slots[i] == resolve(ids[i]) {
      assert !Waiting(waiting, i);
    }
  }

  // ---------------------------------------------------------------------------------------
  // getAlbumTracks

  /** The decoded album record: a rejected `fetch` with its error's message, not ok, or its
      `album_type`, `name` and `release_date`. */
  datatype AlbumResponse = AlbumRejected(message: string) | AlbumNotOk | AlbumOk(albumType: Option<string>, name: Option<string>, releaseDate: Option<string>)

  function AlbumUrl(albumId: string): string {
    API_BASE + "/albums/" + albumId
  }

  predicate IsCompilation(album: AlbumResponse)
    requires album.AlbumOk?
  {
    album.albumType == Some("compilation")
  }

  /** `{ name: albumData.name ?? "", release_date: albumData.release_date ?? "" }`. */
  function BaseAlbumInfo(album: AlbumResponse): AlbumInfo
    requires album.AlbumOk?
  {
    AlbumInfo(album.name.GetOr(""), album.releaseDate.GetOr(""))
  }

  /** The track of a regular album: the item with the album's own name and date. */
  function DirectTrack(item: AlbumTrackItem, base: AlbumInfo): Track {
    Track(item.id, item.name, ItemArtists(item), base)
  }

  function DirectTracks(base: AlbumInfo): AlbumTrackItem -> Option<Track> {
    item => Some(DirectTrack(item, base))
  }

  function KeepItem(item: AlbumTrackItem): Option<AlbumTrackItem> {
    Some(item)
  }

  function AlbumTrackPages(accessToken: string, albumId: string,
                           fetch: (string, string) -> PageResponse<AlbumTrackItem>): int -> PageResponse<AlbumTrackItem> {
    offset => fetch(PageUrl(API_BASE + "/albums/" + albumId + "/tracks", offset, ALBUM_PAGE_LIMIT), Bearer(accessToken))
  }

  /** Every compilation track resolved by its own search, the unresolved ones dropped, in
      album order. */
  function ResolveAll(items: seq<AlbumTrackItem>, accessToken: string, search: (string, string) -> CandidateResponse)
    : seq<Track>
  {
    FilterSome(seq(|items|, i requires 0 <= i < |items| => ResolveTrack(items[i].id, InfoMap(items), accessToken, search)))
  }

  /** What `getAlbumTracks` returns, when the album-track listing ends at request `last`. */
  function AlbumTracks(accessToken: string, albumId: string, fetchAlbum: (string, string) -> AlbumResponse,
                       fetchTracks: (string, string) -> PageResponse<AlbumTrackItem>,
                       search: (string, string) -> CandidateResponse, last: nat): Result<seq<Track>, string>
  {
    var album := fetchAlbum(AlbumUrl(albumId), Bearer(accessToken));
    var pages := AlbumTrackPages(accessToken, albumId, fetchTracks);
    if album.AlbumRejected? then Failure(album.message)
    else if album.AlbumNotOk? then Failure(ALBUM_INFO_FAILED)
    else if !IsCompilation(album) then
      OrThrow(Listing(pages, ALBUM_PAGE_LIMIT, DirectTracks(BaseAlbumInfo(album)), 0, last), ALBUM_TRACKS_FAILED)
    else
      match Listing(pages, ALBUM_PAGE_LIMIT, KeepItem, 0, last)
      case Failure(e) => Failure(ThrownBy(e, ALBUM_TRACKS_FAILED))
      case Success(items) => Success(ResolveAll(items, accessToken, search))
  }

  /** The `forEach` over the album's items for a compilation: the ids in order, and the
      searchable text of each id. */
  method IndexTracks(items: seq<AlbumTrackItem>) returns (ids: seq<string>, info: map<string, TrackInfo>)
    ensures ids == seq(|items|, i requires 0 <= i < |items| => items[i].id)
    ensures info == InfoMap(items)
  {
    ids := [];
    info := map[];
    for i := 0 to |items|
      invariant ids == seq(i, j requires 0 <= j < i => items[j].id)
      invariant info == InfoMap(items[..i])
    {
      assert items[..i + 1][..i] == items[..i];
      ids := ids + [items[i].id];
      info := info[items[i].id := InfoOf(items[i])];
    }
    assert items[..|items|] == items;
  }

  /** `getAlbumTracks(accessToken, albumId)`: the album record first; a regular album's tracks
      carry the album's own name and date, and a compilation's tracks are each resolved by a
      search through the worker pool. */
  method GetAlbumTracks(accessToken: string, albumId: string, fetchAlbum: (string, string) -> AlbumResponse,
                        fetchTracks: (string, string) -> PageResponse<AlbumTrackItem>,
                        search: (string, string) -> CandidateResponse, pick: nat -> nat, ghost last: nat)
    returns (r: Result<seq<Track>, string>)
    requires fetchAlbum(AlbumUrl(albumId), Bearer(accessToken)).AlbumOk? ==>
      EndsAt(AlbumTrackPages(accessToken, albumId, fetchTracks), ALBUM_PAGE_LIMIT, last)
    ensures r == AlbumTracks(accessToken, albumId, fetchAlbum, fetchTracks, search, last)
  {
    var album := fetchAlbum(AlbumUrl(albumId), Bearer(accessToken));
    if album.AlbumRejected? {
      return Failure(album.message);
    }
    if album.AlbumNotOk? {
      return Failure(ALBUM_INFO_FAILED);
    }
    var pages := AlbumTrackPages(accessToken, albumId, fetchTracks);
    if !IsCompilation(album) {
      var direct := FetchAllPages(pages, ALBUM_PAGE_LIMIT, DirectTracks(BaseAlbumInfo(album)), last);
      return OrThrow(direct, ALBUM_TRACKS_FAILED);
    }
    var items := FetchAllPages(pages, ALBUM_PAGE_LIMIT, KeepItem, last);
    if items.Failure? {
      return Failure(ThrownBy(items.error, ALBUM_TRACKS_FAILED));
    }
    var resolved := ResolveCompilation(items.value, accessToken, search, pick);
    return Success(resolved);
  }

  /** Steps 3 and 4 of `getAlbumTracks` for a compilation: index the listed tracks, then
      resolve them with the worker pool. */
  method ResolveCompilation(items: seq<AlbumTrackItem>, accessToken: string,
                            search: (string, string) -> CandidateResponse, pick: nat -> nat)
    returns (r: seq<Track>)
    ensures r == ResolveAll(items, accessToken, search)
  {
    var trackIds, trackInfo := IndexTracks(items);
    var resolve := id => ResolveTrack(id, trackInfo, accessToken, search);
    var resolved, _, _, _ := RunWorkerPool(trackIds, resolve, pick);
    assert seq(|trackIds|, i requires 0 <= i < |trackIds| => resolve(trackIds[i]))
      == seq(|items|, i requires 0 <= i < |items| => ResolveTrack(items[i].id, InfoMap(items), accessToken, search));
    return resolved;
  }

  /** A regular album gives one track per item, in order, each with the album's own name and
      date, and no search is made: the answer does not depend on the search. */
  lemma RegularAlbumTracks(accessToken: string, albumId: string, fetchAlbum: (string, string) -> AlbumResponse,
                           fetchTracks: (string, string) -> PageResponse<AlbumTrackItem>,
                           search: (string, string) -> CandidateResponse, other: (string, string) -> CandidateResponse,
                           last: nat)
    requires fetchAlbum(AlbumUrl(albumId), Bearer(accessToken)).AlbumOk?
    requires !IsCompilation(fetchAlbum(AlbumUrl(albumId), Bearer(accessToken)))
    ensures AlbumTracks(accessToken, albumId, fetchAlbum, fetchTracks, search, last) ==
      AlbumTracks(accessToken, albumId, fetchAlbum, fetchTracks, other, last)
    ensures var r := AlbumTracks(accessToken, albumId, fetchAlbum, fetchTracks, search, last);
      var base := BaseAlbumInfo(fetchAlbum(AlbumUrl(albumId), Bearer(accessToken)));
      match Listing(AlbumTrackPages(accessToken, albumId, fetchTracks), ALBUM_PAGE_LIMIT, KeepItem, 0, last)
      case Failure(e) => r == Failure(ThrownBy(e, ALBUM_TRACKS_FAILED))
      case Success(items) =>
        r.Success? && |r.value| == |items| &&
        forall i :: 0 <= i < |items| ==> r.value[i] == DirectTrack(items[i], base)
  {
    var base := BaseAlbumInfo(fetchAlbum(AlbumUrl(albumId), Bearer(accessToken)));
    TotalListing(AlbumTrackPages(accessToken, albumId, fetchTracks), ALBUM_PAGE_LIMIT, DirectTracks(base), KeepItem,
                 item => DirectTrack(item, base), 0, last);
  }

  /** A compilation never fails once its tracks are listed: a failed search only leaves its
      track out, every listed id has its searchable text, and an empty compilation gives
      no tracks. */
  lemma CompilationTracks(accessToken: string, albumId: string, fetchAlbum: (string, string) -> AlbumResponse,
                          fetchTracks: (string, string) -> PageResponse<AlbumTrackItem>,
                          search: (string, string) -> CandidateResponse, last: nat, items: seq<AlbumTrackItem>)
    requires fetchAlbum(AlbumUrl(albumId), Bearer(accessToken)).AlbumOk?
    requires IsCompilation(fetchAlbum(AlbumUrl(albumId), Bearer(accessToken)))
    requires Listing(AlbumTrackPages(accessToken, albumId, fetchTracks), ALBUM_PAGE_LIMIT, KeepItem, 0, last) == Success(items)
    ensures var r := AlbumTracks(accessToken, albumId, fetchAlbum, fetchTracks, search, last);
      r.Success? && |r.value| <= |items| && (items == [] ==> r.value == [])
    ensures forall i :: 0 <= i < |items| ==> items[i].id in InfoMap(items)
  {
    forall i | 0 <= i < |items| ensures items[i].id in InfoMap(items) {
      InfoMapHasId(items, i);
    }
  }
}
