/** The music-library hook: the state behind the card-generation page (the user's playlists,
    search results and selections, a loading flag and an error) and the operations that load
    into it. The API calls it awaits are parameters: each stands for the operation of that
    name in SpotifyApi, as a function from the access token and its argument to the outcome. */
module MusicLibrary {
  import opened Wrappers
  import opened JsText
  import opened SpotifyTypes
  import CardBuilder

  // ---------------------------------------------------------------------------------------
  // Merging track lists, first occurrence first

  /** The lists one after the other. */
  function Flatten(lists: seq<seq<Track>>): (r: seq<Track>)
    ensures lists == [] ==> r == []
  {
    if lists == [] then [] else Flatten(lists[..|lists| - 1]) + lists[|lists| - 1]
  }

  function IdSet(tracks: seq<Track>): set<string> {
    set t | t in tracks :: t.id
  }

  /** The tracks in order, each dropped when a track with its id came before it. */
  function Dedup(tracks: seq<Track>): (r: seq<Track>)
  {
    if tracks == [] then []
    else
      var kept := Dedup(tracks[..|tracks| - 1]);
      var t := tracks[|tracks| - 1];
      if t.id in IdSet(kept) then kept else kept + [t]
  }

  /** The position of the first track with id `id`. */
  function FirstIndexOf(tracks: seq<Track>, id: string): (i: nat)
    requires id in IdSet(tracks)
    ensures i < |tracks| && tracks[i].id == id
    ensures forall j :: 0 <= j < i ==> tracks[j].id != id
  {
    if tracks[0].id == id then 0
    else
      assert id in IdSet(tracks[1..]) by {
        var t :| t in tracks && t.id == id;
        var k :| 0 <= k < |tracks| && tracks[k] == t;
        assert tracks[1..][k - 1] == t;
      }
      1 + FirstIndexOf(tracks[1..], id)
  }

  lemma DedupSnoc(tracks: seq<Track>, t: Track)
    ensures Dedup(tracks + [t]) ==
      if t.id in IdSet(Dedup(tracks)) then Dedup(tracks) else Dedup(tracks) + [t]
  {
    assert (tracks + [t])[..|tracks|] == tracks;
  }

  lemma IdSetSnoc(tracks: seq<Track>, t: Track)
    ensures IdSet(tracks + [t]) == IdSet(tracks) + {t.id}
  {
  }

  /** The merge drops no id and invents none: every id of the input is in the output. */
  lemma {:induction false} DedupIds(tracks: seq<Track>)
    ensures IdSet(Dedup(tracks)) == IdSet(tracks)
  {
    if tracks != [] {
      var init := tracks[..|tracks| - 1];
      var t := tracks[|tracks| - 1];
      assert tracks == init + [t];
      DedupIds(init);
      DedupSnoc(init, t);
      IdSetSnoc(init, t);
      IdSetSnoc(Dedup(init), t);
    }
  }

  /** The merge keeps each id at most once. */
  lemma {:induction false} DedupDistinct(tracks: seq<Track>)
    ensures forall a, b :: 0 <= a < b < |Dedup(tracks)| ==> Dedup(tracks)[a].id != Dedup(tracks)[b].id
  {
    if tracks != [] {
      var init := tracks[..|tracks| - 1];
      var t := tracks[|tracks| - 1];
      assert tracks == init + [t];
      DedupDistinct(init);
      DedupSnoc(init, t);
      var kept := Dedup(init);
      if t.id !in IdSet(kept) {
        forall a | 0 <= a < |kept| ensures kept[a].id != t.id {
          assert kept[a] in kept;
        }
      }
    }
  }

  /** Any index holding the id with no earlier index holding it is the first one. */
  lemma FirstIndexUnique(tracks: seq<Track>, id: string, i: nat)
    requires i < |tracks| && tracks[i].id == id
    requires forall j :: 0 <= j < i ==> tracks[j].id != id
    ensures id in IdSet(tracks) && FirstIndexOf(tracks, id) == i
  {
    assert tracks[i] in tracks;
  }

  lemma FirstIndexSnoc(init: seq<Track>, t: Track, id: string)
    requires id in IdSet(init)
    ensures id in IdSet(init + [t]) && FirstIndexOf(init + [t], id) == FirstIndexOf(init, id)
  {
    FirstIndexUnique(init + [t], id, FirstIndexOf(init, id));
  }

  /** What the merge keeps of each id is its first occurrence. */
  lemma {:induction false} DedupKeepsFirst(tracks: seq<Track>)
    ensures forall k :: 0 <= k < |Dedup(tracks)| ==>
      Dedup(tracks)[k].id in IdSet(tracks) && Dedup(tracks)[k] == tracks[FirstIndexOf(tracks, Dedup(tracks)[k].id)]
  {
    if tracks != [] {
      var init := tracks[..|tracks| - 1];
      var t := tracks[|tracks| - 1];
      assert tracks == init + [t];
      DedupKeepsFirst(init);
      DedupSnoc(init, t);
      var kept := Dedup(init);
      forall k | 0 <= k < |kept|
        ensures kept[k].id in IdSet(tracks) && FirstIndexOf(tracks, kept[k].id) == FirstIndexOf(init, kept[k].id)
      {
        FirstIndexSnoc(init, t, kept[k].id);
      }
      if t.id !in IdSet(kept) {
        DedupIds(init);
        FirstIndexUnique(tracks, t.id, |init|);
      }
    }
  }

  /** The kept tracks come in the order of their first occurrences. */
  lemma {:induction false} DedupKeepsOrder(tracks: seq<Track>)
    ensures forall a, b :: 0 <= a < b < |Dedup(tracks)| ==>
      Dedup(tracks)[a].id in IdSet(tracks) && Dedup(tracks)[b].id in IdSet(tracks) &&
      FirstIndexOf(tracks, Dedup(tracks)[a].id) < FirstIndexOf(tracks, Dedup(tracks)[b].id)
  {
    if tracks != [] {
      var init := tracks[..|tracks| - 1];
      var t := tracks[|tracks| - 1];
      assert tracks == init + [t];
      DedupKeepsOrder(init);
      DedupKeepsFirst(init);
      DedupSnoc(init, t);
      DedupIds(init);
      var kept := Dedup(init);
      var d := Dedup(tracks);
      forall k | 0 <= k < |kept|
        ensures kept[k].id in IdSet(tracks) && FirstIndexOf(tracks, kept[k].id) == FirstIndexOf(init, kept[k].id)
      {
        FirstIndexSnoc(init, t, kept[k].id);
      }
      if t.id !in IdSet(kept) {
        FirstIndexUnique(tracks, t.id, |init|);
      }
      forall a, b | 0 <= a < b < |d|
        ensures d[a].id in IdSet(tracks) && d[b].id in IdSet(tracks)
        ensures FirstIndexOf(tracks, d[a].id) < FirstIndexOf(tracks, d[b].id)
      {
        assert d[a] == kept[a];
        if b < |kept| {
          assert d[b] == kept[b];
        } else {
          assert d[b] == t;
        }
      }
      assert d == Dedup(tracks);
    } else {
      assert Dedup(tracks) == [];
    }
  }

  lemma {:induction false} FlattenContains(lists: seq<seq<Track>>, i: nat, t: Track)
    requires i < |lists| && t in lists[i]
    ensures t in Flatten(lists)
    decreases |lists|
  {
    if i < |lists| - 1 {
      FlattenContains(lists[..|lists| - 1], i, t);
    }
  }

  /** Every id of any of the merged lists is in the merged output. */
  lemma MergeCovers(lists: seq<seq<Track>>, i: nat, t: Track)
    requires i < |lists| && t in lists[i]
    ensures t.id in IdSet(Dedup(Flatten(lists)))
  {
    FlattenContains(lists, i, t);
    DedupIds(Flatten(lists));
  }

  /** The first-seen merge of `selectPlaylists` and `selectAlbums`: a set of the ids seen so
      far, and each track pushed when its id is new. */
  method MergeFirstSeen(lists: seq<seq<Track>>) returns (merged: seq<Track>)
    ensures merged == Dedup(Flatten(lists))
  {
    var seen: set<string> := {};
    merged := [];
    var i := 0;
    while i < |lists|
      invariant 0 <= i <= |lists|
      invariant merged == Dedup(Flatten(lists[..i]))
      invariant seen == IdSet(merged)
    {
      var list := lists[i];
      var j := 0;
      assert Flatten(lists[..i]) + list[..0] == Flatten(lists[..i]);
      while j < |list|
        invariant 0 <= j <= |list|
        invariant merged == Dedup(Flatten(lists[..i]) + list[..j])
        invariant seen == IdSet(merged)
      {
        var track := list[j];
        assert Flatten(lists[..i]) + list[..j + 1] == Flatten(lists[..i]) + list[..j] + [track];
        DedupSnoc(Flatten(lists[..i]) + list[..j], track);
        IdSetSnoc(merged, track);
        if track.id !in seen {
          seen := seen + {track.id};
          merged := merged + [track];
        }
        j := j + 1;
      }
      assert list[..j] == list;
      assert lists[..i + 1][..i] == lists[..i];
      assert Flatten(lists[..i + 1]) == Flatten(lists[..i]) + list;
      i := i + 1;
    }
    assert lists[..i] == lists;
  }

  // ---------------------------------------------------------------------------------------
  // Loading several lists at once

  /** `Promise.all`: the values when every call succeeded, else the message of a failed one
      (the first in list order). */
  function Gather<T>(outcomes: seq<Result<T, string>>): (r: Result<seq<T>, string>)
    ensures r.Success? <==> forall i :: 0 <= i < |outcomes| ==> outcomes[i].Success?
    ensures r.Success? ==> |r.value| == |outcomes|
    ensures r.Success? ==> forall i :: 0 <= i < |outcomes| ==> r.value[i] == outcomes[i].value
    ensures r.Failure? ==>
      exists i :: 0 <= i < |outcomes| && outcomes[i] == Failure(r.error) && (forall j :: 0 <= j < i ==> outcomes[j].Success?)
  {
    if outcomes == [] then Success([])
    else match outcomes[0]
      case Failure(message) => Failure(message)
      case Success(v) =>
        match Gather(outcomes[1..])
        case Failure(message) => Failure(message)
        case Success(rest) => Success([v] + rest)
  }

  /** The track lists of the given ids, each loaded with `tracksOf`. */
  function TrackLists(accessToken: string, ids: seq<string>, tracksOf: (string, string) -> Result<seq<Track>, string>)
    : (r: seq<Result<seq<Track>, string>>)
    ensures |r| == |ids| && forall i :: 0 <= i < |ids| ==> r[i] == tracksOf(accessToken, ids[i])
  {
    seq(|ids|, i requires 0 <= i < |ids| => tracksOf(accessToken, ids[i]))
  }

  /** The cards of the merged lists, or the error of a failed load. */
  function MergedCards(accessToken: string, ids: seq<string>, tracksOf: (string, string) -> Result<seq<Track>, string>)
    : Result<seq<Card>, string>
  {
    match Gather(TrackLists(accessToken, ids, tracksOf))
    case Failure(message) => Failure(message)
    case Success(lists) => Success(CardBuilder.BuildCards(Dedup(Flatten(lists))))
  }

  method LoadMerged(accessToken: string, ids: seq<string>, tracksOf: (string, string) -> Result<seq<Track>, string>)
    returns (outcome: Result<seq<Card>, string>)
    ensures outcome == MergedCards(accessToken, ids, tracksOf)
  {
    var lists := TrackLists(accessToken, ids, tracksOf);
    match Gather(lists) {
      case Failure(message) =>
        outcome := Failure(message);
      case Success(trackLists) =>
        var merged := MergeFirstSeen(trackLists);
        outcome := Success(CardBuilder.BuildCards(merged));
    }
  }

  function PlaylistIds(playlists: seq<Playlist>): (ids: seq<string>)
    ensures |ids| == |playlists| && forall i :: 0 <= i < |playlists| ==> ids[i] == playlists[i].id
  {
    seq(|playlists|, i requires 0 <= i < |playlists| => playlists[i].id)
  }

  function AlbumIds(albums: seq<Album>): (ids: seq<string>)
    ensures |ids| == |albums| && forall i :: 0 <= i < |albums| ==> ids[i] == albums[i].id
  {
    seq(|albums|, i requires 0 <= i < |albums| => albums[i].id)
  }

  // ---------------------------------------------------------------------------------------
  // The hook's state and what each operation makes of it

  datatype LibraryState = LibraryState(
    playlists: seq<Playlist>, selectedPlaylists: seq<Playlist>,
    trackResults: seq<Track>, selectedTracks: seq<Track>,
    albumResults: seq<Album>, selectedAlbums: seq<Album>,
    loading: bool, error: Option<string>, showUserPlaylists: bool)

  const INITIAL: LibraryState := LibraryState([], [], [], [], [], [], false, None, false)

  /** `accessToken` is truthy: present and not empty. */
  predicate HasToken(accessToken: Option<string>) {
    accessToken.Some? && accessToken.value != ""
  }

  /** `!query.trim()`. */
  predicate BlankQuery(query: string) {
    Trim(query) == ""
  }

  /** After an awaited call: `loading` off, and the error of a failure, if any. */
  function Settled<T>(s: LibraryState, outcome: Result<T, string>): LibraryState {
    match outcome
    case Success(_) => s.(loading := false, error := None)
    case Failure(message) => s.(loading := false, error := Some(message))
  }

  function SearchTracksStep(s: LibraryState, accessToken: Option<string>, query: string,
                            search: (string, string) -> Result<seq<Track>, string>): LibraryState
  {
    if !HasToken(accessToken) || BlankQuery(query) then s
    else
      var outcome := search(accessToken.value, query);
      var s' := Settled(s, outcome);
      if outcome.Success? then s'.(trackResults := outcome.value) else s'
  }

  function SearchAlbumsStep(s: LibraryState, accessToken: Option<string>, query: string,
                            search: (string, string) -> Result<seq<Album>, string>): LibraryState
  {
    if !HasToken(accessToken) || BlankQuery(query) then s
    else
      var outcome := search(accessToken.value, query);
      var s' := Settled(s, outcome);
      if outcome.Success? then s'.(albumResults := outcome.value) else s'
  }

  function LoadUserPlaylistsStep(s: LibraryState, accessToken: Option<string>,
                                 load: string -> Result<seq<Playlist>, string>): LibraryState
  {
    if !HasToken(accessToken) then s
    else
      var outcome := load(accessToken.value);
      var s' := Settled(s, outcome);
      if outcome.Success? then s'.(playlists := outcome.value, showUserPlaylists := true) else s'
  }

  function ToggleUserPlaylistsStep(s: LibraryState, accessToken: Option<string>,
                                   load: string -> Result<seq<Playlist>, string>): LibraryState
  {
    if s.showUserPlaylists then s.(showUserPlaylists := false)
    else LoadUserPlaylistsStep(s, accessToken, load)
  }

  function LoadSavedTracksStep(s: LibraryState, accessToken: Option<string>,
                               load: string -> Result<seq<Track>, string>): (LibraryState, seq<Card>)
  {
    if !HasToken(accessToken) then (s, [])
    else
      var outcome := load(accessToken.value);
      var s' := Settled(s.(selectedPlaylists := []), outcome);
      (s', if outcome.Success? then CardBuilder.BuildCards(outcome.value) else [])
  }

  function SelectPlaylistsStep(s: LibraryState, accessToken: Option<string>, toLoad: seq<Playlist>,
                               tracksOf: (string, string) -> Result<seq<Track>, string>): (LibraryState, seq<Card>)
  {
    if !HasToken(accessToken) then (s, [])
    else
      var outcome := MergedCards(accessToken.value, PlaylistIds(toLoad), tracksOf);
      var s' := Settled(s.(selectedPlaylists := toLoad), outcome);
      (s', if outcome.Success? then outcome.value else [])
  }

  function SelectAlbumsStep(s: LibraryState, accessToken: Option<string>, toLoad: seq<Album>,
                            tracksOf: (string, string) -> Result<seq<Track>, string>): (LibraryState, seq<Card>)
  {
    if !HasToken(accessToken) then (s, [])
    else
      var outcome := MergedCards(accessToken.value, AlbumIds(toLoad), tracksOf);
      var s' := Settled(s.(selectedAlbums := toLoad), outcome);
      (s', if outcome.Success? then outcome.value else [])
  }

  function ResetStep(s: LibraryState): LibraryState {
    LibraryState([], [], [], [], [], [], s.loading, None, false)
  }

  // ---------------------------------------------------------------------------------------
  // Properties of the operations

  /** A search without a token, or with a query of nothing but whitespace, changes nothing. */
  lemma SearchGuard(s: LibraryState, accessToken: Option<string>, query: string,
                    searchTracks: (string, string) -> Result<seq<Track>, string>,
                    searchAlbums: (string, string) -> Result<seq<Album>, string>)
    requires !HasToken(accessToken) || AllWhitespace(query)
    ensures SearchTracksStep(s, accessToken, query, searchTracks) == s
    ensures SearchAlbumsStep(s, accessToken, query, searchAlbums) == s
  {
    TrimEmpty(query);
  }

  /** With a token and a query that has some other character, a track search replaces the
      results on success and records the message on failure; `loading` ends off. */
  lemma SearchTracksRuns(s: LibraryState, accessToken: Option<string>, query: string,
                         search: (string, string) -> Result<seq<Track>, string>)
    requires HasToken(accessToken) && !AllWhitespace(query)
    ensures var s' := SearchTracksStep(s, accessToken, query, search);
      var outcome := search(accessToken.value, query);
      !s'.loading &&
      (outcome.Success? ==> s'.trackResults == outcome.value && s'.error == None) &&
      (outcome.Failure? ==> s'.trackResults == s.trackResults && s'.error == Some(outcome.error)) &&
      s'.selectedTracks == s.selectedTracks && s'.albumResults == s.albumResults
  {
    TrimEmpty(query);
  }

  lemma SearchAlbumsRuns(s: LibraryState, accessToken: Option<string>, query: string,
                         search: (string, string) -> Result<seq<Album>, string>)
    requires HasToken(accessToken) && !AllWhitespace(query)
    ensures var s' := SearchAlbumsStep(s, accessToken, query, search);
      var outcome := search(accessToken.value, query);
      !s'.loading &&
      (outcome.Success? ==> s'.albumResults == outcome.value && s'.error == None) &&
      (outcome.Failure? ==> s'.albumResults == s.albumResults && s'.error == Some(outcome.error)) &&
      s'.selectedAlbums == s.selectedAlbums && s'.trackResults == s.trackResults
  {
    TrimEmpty(query);
  }

  /** Toggling a shown list hides it and loads nothing; toggling a hidden one loads it, and a
      second toggle after a successful load hides it again, keeping what was loaded. */
  lemma ToggleUserPlaylistsTwice(s: LibraryState, accessToken: Option<string>,
                                 load: string -> Result<seq<Playlist>, string>)
    requires !s.showUserPlaylists && HasToken(accessToken) && load(accessToken.value).Success?
    ensures var once := ToggleUserPlaylistsStep(s, accessToken, load);
      once.showUserPlaylists && once.playlists == load(accessToken.value).value && once.error == None &&
      ToggleUserPlaylistsStep(once, accessToken, load) == once.(showUserPlaylists := false)
  {
  }

  /** When a list fails to load, the playlist selection gives no cards and reports the first
      failing list's message, with `loading` off and the selection kept. */
  lemma SelectPlaylistsFailure(s: LibraryState, accessToken: string, toLoad: seq<Playlist>,
                               tracksOf: (string, string) -> Result<seq<Track>, string>, i: nat)
    requires accessToken != "" && i < |toLoad| && tracksOf(accessToken, toLoad[i].id).Failure?
    requires forall j :: 0 <= j < i ==> tracksOf(accessToken, toLoad[j].id).Success?
    ensures var (s', cards) := SelectPlaylistsStep(s, Some(accessToken), toLoad, tracksOf);
      cards == [] && !s'.loading && s'.selectedPlaylists == toLoad &&
      s'.error == Some(tracksOf(accessToken, toLoad[i].id).error)
  {
    var outcomes := TrackLists(accessToken, PlaylistIds(toLoad), tracksOf);
    var g := Gather(outcomes);
    assert outcomes[i].Failure?;
    var k :| 0 <= k < |outcomes| && outcomes[k] == Failure(g.error) && (forall j :: 0 <= j < k ==> outcomes[j].Success?);
    assert !(k < i) && !(i < k);
  }

  /** When every list loads, the playlist selection gives the cards of the merged tracks. */
  lemma SelectPlaylistsSuccess(s: LibraryState, accessToken: string, toLoad: seq<Playlist>,
                               tracksOf: (string, string) -> Result<seq<Track>, string>)
    requires accessToken != ""
    requires forall i :: 0 <= i < |toLoad| ==> tracksOf(accessToken, toLoad[i].id).Success?
    ensures var lists := seq(|toLoad|, i requires 0 <= i < |toLoad| => tracksOf(accessToken, toLoad[i].id).value);
      var (s', cards) := SelectPlaylistsStep(s, Some(accessToken), toLoad, tracksOf);
      cards == CardBuilder.BuildCards(Dedup(Flatten(lists))) && s'.error == None && !s'.loading
  {
    var lists := seq(|toLoad|, i requires 0 <= i < |toLoad| => tracksOf(accessToken, toLoad[i].id).value);
    var g := Gather(TrackLists(accessToken, PlaylistIds(toLoad), tracksOf));
    assert g.value == lists;
  }

  /** When a list fails to load, the album selection gives no cards and reports the first
      failing list's message, with `loading` off and the selection kept. */
  lemma SelectAlbumsFailure(s: LibraryState, accessToken: string, toLoad: seq<Album>,
                            tracksOf: (string, string) -> Result<seq<Track>, string>, i: nat)
    requires accessToken != "" && i < |toLoad| && tracksOf(accessToken, toLoad[i].id).Failure?
    requires forall j :: 0 <= j < i ==> tracksOf(accessToken, toLoad[j].id).Success?
    ensures var (s', cards) := SelectAlbumsStep(s, Some(accessToken), toLoad, tracksOf);
      cards == [] && !s'.loading && s'.selectedAlbums == toLoad &&
      s'.error == Some(tracksOf(accessToken, toLoad[i].id).error)
  {
    var outcomes := TrackLists(accessToken, AlbumIds(toLoad), tracksOf);
    var g := Gather(outcomes);
    assert outcomes[i].Failure?;
    var k :| 0 <= k < |outcomes| && outcomes[k] == Failure(g.error) && (forall j :: 0 <= j < k ==> outcomes[j].Success?);
    assert !(k < i) && !(i < k);
  }

  /** When every list loads, the album selection gives the cards of the merged tracks. */
  lemma SelectAlbumsSuccess(s: LibraryState, accessToken: string, toLoad: seq<Album>,
                            tracksOf: (string, string) -> Result<seq<Track>, string>)
    requires accessToken != ""
    requires forall i :: 0 <= i < |toLoad| ==> tracksOf(accessToken, toLoad[i].id).Success?
    ensures var lists := seq(|toLoad|, i requires 0 <= i < |toLoad| => tracksOf(accessToken, toLoad[i].id).value);
      var (s', cards) := SelectAlbumsStep(s, Some(accessToken), toLoad, tracksOf);
      cards == CardBuilder.BuildCards(Dedup(Flatten(lists))) && s'.error == None && !s'.loading &&
      s'.selectedAlbums == toLoad
  {
    var lists := seq(|toLoad|, i requires 0 <= i < |toLoad| => tracksOf(accessToken, toLoad[i].id).value);
    var g := Gather(TrackLists(accessToken, AlbumIds(toLoad), tracksOf));
    assert g.value == lists;
  }

  /** Loading the saved tracks drops the playlist selection; a failed load gives no cards. */
  lemma LoadSavedTracksOutcome(s: LibraryState, accessToken: string, load: string -> Result<seq<Track>, string>)
    requires accessToken != ""
    ensures var (s', cards) := LoadSavedTracksStep(s, Some(accessToken), load);
      s'.selectedPlaylists == [] && !s'.loading &&
      (load(accessToken).Failure? ==> cards == [] && s'.error == Some(load(accessToken).error)) &&
      (load(accessToken).Success? ==> |cards| == |load(accessToken).value| && s'.error == None)
  {
  }

  /** Without a token the loading operations change nothing and give no cards. */
  lemma NoTokenNoLoad(s: LibraryState, accessToken: Option<string>, toLoad: seq<Album>,
                      tracksOf: (string, string) -> Result<seq<Track>, string>,
                      load: string -> Result<seq<Track>, string>)
    requires !HasToken(accessToken)
    ensures SelectAlbumsStep(s, accessToken, toLoad, tracksOf) == (s, [])
    ensures LoadSavedTracksStep(s, accessToken, load) == (s, [])
  {
  }

  /** `reset` is the initial state except for `loading`, and resetting twice is resetting once. */
  lemma ResetClears(s: LibraryState)
    ensures ResetStep(s) == INITIAL.(loading := s.loading)
    ensures ResetStep(ResetStep(s)) == ResetStep(s)
  {
  }

  /** The hook's state cells. */
  class Library {
    var playlists: seq<Playlist>
    var selectedPlaylists: seq<Playlist>
    var trackResults: seq<Track>
    var selectedTracks: seq<Track>
    var albumResults: seq<Album>
    var selectedAlbums: seq<Album>
    var loading: bool
    var error: Option<string>
    var showUserPlaylists: bool

    function State(): LibraryState
      reads this
    {
      LibraryState(playlists, selectedPlaylists, trackResults, selectedTracks,
                   albumResults, selectedAlbums, loading, error, showUserPlaylists)
    }

    constructor ()
      ensures State() == INITIAL
    {
      playlists, selectedPlaylists := [], [];
      trackResults, selectedTracks := [], [];
      albumResults, selectedAlbums := [], [];
      loading, error, showUserPlaylists := false, None, false;
    }

    /** The state setters the component uses. */
    method SetSelectedPlaylists(value: seq<Playlist>)
      modifies this
      ensures State() == old(State()).(selectedPlaylists := value)
    {
      selectedPlaylists := value;
    }

    method SetSelectedTracks(value: seq<Track>)
      modifies this
      ensures State() == old(State()).(selectedTracks := value)
    {
      selectedTracks := value;
    }

    method SetSelectedAlbums(value: seq<Album>)
      modifies this
      ensures State() == old(State()).(selectedAlbums := value)
    {
      selectedAlbums := value;
    }

    /** The `catch` and `finally` of an awaited call, once `error` was cleared before it. */
    method Settle<T>(outcome: Result<T, string>)
      requires error == None
      modifies this
      ensures State() == Settled(old(State()), outcome)
    {
      if outcome.Failure? {
        error := Some(outcome.error);
      }
      loading := false;
    }

    method SearchTracks(accessToken: Option<string>, query: string,
                        search: (string, string) -> Result<seq<Track>, string>)
      modifies this
      ensures State() == SearchTracksStep(old(State()), accessToken, query, search)
    {
      if !HasToken(accessToken) || Trim(query) == "" {
        return;
      }
      loading := true;
      error := None;
      var outcome := search(accessToken.value, query);
      if outcome.Success? {
        trackResults := outcome.value;
      }
      Settle(outcome);
    }

    method SearchAlbums(accessToken: Option<string>, query: string,
                        search: (string, string) -> Result<seq<Album>, string>)
      modifies this
      ensures State() == SearchAlbumsStep(old(State()), accessToken, query, search)
    {
      if !HasToken(accessToken) || Trim(query) == "" {
        return;
      }
      loading := true;
      error := None;
      var outcome := search(accessToken.value, query);
      if outcome.Success? {
        albumResults := outcome.value;
      }
      Settle(outcome);
    }

    method LoadUserPlaylists(accessToken: Option<string>, load: string -> Result<seq<Playlist>, string>)
      modifies this
      ensures State() == LoadUserPlaylistsStep(old(State()), accessToken, load)
    {
      if !HasToken(accessToken) {
        return;
      }
      loading := true;
      error := None;
      var outcome := load(accessToken.value);
      if outcome.Success? {
        playlists := outcome.value;
        showUserPlaylists := true;
      }
      Settle(outcome);
    }

    method ToggleUserPlaylists(accessToken: Option<string>, load: string -> Result<seq<Playlist>, string>)
      modifies this
      ensures State() == ToggleUserPlaylistsStep(old(State()), accessToken, load)
    {
      if showUserPlaylists {
        showUserPlaylists := false;
      } else {
        LoadUserPlaylists(accessToken, load);
      }
    }

    method LoadSavedTracks(accessToken: Option<string>, load: string -> Result<seq<Track>, string>)
      returns (cards: seq<Card>)
      modifies this
      ensures (State(), cards) == LoadSavedTracksStep(old(State()), accessToken, load)
    {
      if !HasToken(accessToken) {
        return [];
      }
      loading := true;
      error := None;
      selectedPlaylists := [];
      var outcome := load(accessToken.value);
      cards := if outcome.Success? then CardBuilder.BuildCards(outcome.value) else [];
      Settle(outcome);
    }

    method SelectPlaylists(accessToken: Option<string>, toLoad: seq<Playlist>,
                           tracksOf: (string, string) -> Result<seq<Track>, string>)
      returns (cards: seq<Card>)
      modifies this
      ensures (State(), cards) == SelectPlaylistsStep(old(State()), accessToken, toLoad, tracksOf)
    {
      if !HasToken(accessToken) {
        return [];
      }
      loading := true;
      error := None;
      selectedPlaylists := toLoad;
      var outcome := LoadMerged(accessToken.value, PlaylistIds(toLoad), tracksOf);
      cards := if outcome.Success? then outcome.value else [];
      Settle(outcome);
    }

    method SelectAlbums(accessToken: Option<string>, toLoad: seq<Album>,
                        tracksOf: (string, string) -> Result<seq<Track>, string>)
      returns (cards: seq<Card>)
      modifies this
      ensures (State(), cards) == SelectAlbumsStep(old(State()), accessToken, toLoad, tracksOf)
    {
      if !HasToken(accessToken) {
        return [];
      }
      loading := true;
      error := None;
      selectedAlbums := toLoad;
      var outcome := LoadMerged(accessToken.value, AlbumIds(toLoad), tracksOf);
      cards := if outcome.Success? then outcome.value else [];
      Settle(outcome);
    }

    method Reset()
      modifies this
      ensures State() == ResetStep(old(State()))
    {
      playlists, selectedPlaylists := [], [];
      trackResults, selectedTracks := [], [];
      albumResults, selectedAlbums := [], [];
      error := None;
      showUserPlaylists := false;
    }
  }
}
