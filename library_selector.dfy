/** The library selector component: toggling playlists, tracks and albums in and out of the
    selections the music-library hook holds, the summary it shows of them, and generating one
    set of cards from everything selected. The selections live in the hook's state; the
    handlers here only read them and call the hook's setters and operations. */
module LibrarySelector {
  import opened Wrappers
  import opened JsText
  import opened SpotifyTypes
  import CardBuilder
  import opened MusicLibrary

  // ---------------------------------------------------------------------------------------
  // Selections keyed by id

  /** `items.some(item => item.id === id)`. */
  predicate HasId<T>(items: seq<T>, idOf: T -> string, id: string) {
    exists i :: 0 <= i < |items| && idOf(items[i]) == id
  }

  /** `items.filter(item => item.id !== id)`. */
  function Without<T(!new)>(items: seq<T>, idOf: T -> string, id: string): (r: seq<T>)
    ensures |r| <= |items|
    ensures forall x :: x in r <==> x in items && idOf(x) != id
    decreases |items|
  {
    if items == [] then []
    else
      var init := Without(items[..|items| - 1], idOf, id);
      var last := items[|items| - 1];
      assert items == items[..|items| - 1] + [last];
      if idOf(last) == id then init else init + [last]
  }

  /** `items.find(item => item.id === id)`: the first item with that id. */
  function Find<T>(items: seq<T>, idOf: T -> string, id: string): (r: Option<T>)
    ensures r.Some? <==> HasId(items, idOf, id)
    ensures r.Some? ==> exists i :: 0 <= i < |items| && items[i] == r.value && idOf(items[i]) == id &&
                                    forall j :: 0 <= j < i ==> idOf(items[j]) != id
    decreases |items|
  {
    if items == [] then None
    else if idOf(items[0]) == id then Some(items[0])
    else
      var r := Find(items[1..], idOf, id);
      assert HasId(items, idOf, id) ==> HasId(items[1..], idOf, id) by {
        if HasId(items, idOf, id) {
          var i :| 0 <= i < |items| && idOf(items[i]) == id;
          assert items[1..][i - 1] == items[i];
        }
      }
      assert r.Some? ==> HasId(items, idOf, id) by {
        if r.Some? {
          var i :| 0 <= i < |items[1..]| && idOf(items[1..][i]) == id;
          assert items[i + 1] == items[1..][i];
        }
      }
      assert r.Some? ==> exists i :: 0 <= i < |items| && items[i] == r.value && idOf(items[i]) == id &&
                                     forall j :: 0 <= j < i ==> idOf(items[j]) != id by {
        if r.Some? {
          var i :| 0 <= i < |items[1..]| && items[1..][i] == r.value && idOf(items[1..][i]) == id &&
                   forall j :: 0 <= j < i ==> idOf(items[1..][j]) != id;
          assert items[i + 1] == r.value;
          forall j | 0 <= j < i + 1 ensures idOf(items[j]) != id {
            if j > 0 {
              assert items[j] == items[1..][j - 1];
            }
          }
        }
      }
      r
  }

  /** Filtering keeps the order: it filters each part of a list on its own. */
  lemma {:induction false} WithoutAppend<T(!new)>(a: seq<T>, b: seq<T>, idOf: T -> string, id: string)
    ensures Without(a + b, idOf, id) == Without(a, idOf, id) + Without(b, idOf, id)
    decreases |b|
  {
    if b == [] {
      assert a + b == a;
    } else {
      var init := b[..|b| - 1];
      var last := b[|b| - 1];
      assert (a + b)[..|a + b| - 1] == a + init;
      assert (a + b)[|a + b| - 1] == last;
      WithoutAppend(a, init, idOf, id);
    }
  }

  /** Filtering out an id no item has changes nothing. */
  lemma {:induction false} WithoutAbsent<T(!new)>(items: seq<T>, idOf: T -> string, id: string)
    requires !HasId(items, idOf, id)
    ensures Without(items, idOf, id) == items
    decreases |items|
  {
    if items != [] {
      var init := items[..|items| - 1];
      assert !HasId(init, idOf, id);
      WithoutAbsent(init, idOf, id);
      assert items == init + [items[|items| - 1]];
    }
  }

  // ---------------------------------------------------------------------------------------
  // The toggle handlers

  function PlaylistId(p: Playlist): string { p.id }
  function TrackId(t: Track): string { t.id }
  function AlbumId(a: Album): string { a.id }

  /** `handleSelectPlaylist`: a selected playlist is removed, every entry with its id; any
      other is appended. */
  function TogglePlaylist(selected: seq<Playlist>, playlist: Playlist): seq<Playlist> {
    if HasId(selected, PlaylistId, playlist.id) then Without(selected, PlaylistId, playlist.id)
    else selected + [playlist]
  }

  /** `handleToggleTrack` and `handleToggleAlbum`: a selected id is removed; otherwise the
      first result with that id, if there is one, is appended. */
  function ToggleFromResults<T(!new)>(selected: seq<T>, results: seq<T>, idOf: T -> string, id: string): seq<T> {
    if HasId(selected, idOf, id) then Without(selected, idOf, id)
    else match Find(results, idOf, id)
      case None => selected
      case Some(item) => selected + [item]
  }

  /** Toggling a selected playlist removes every entry with its id and keeps every other entry,
      in its order; toggling one not selected appends it. */
  lemma TogglePlaylistEffect(selected: seq<Playlist>, playlist: Playlist, pre: seq<Playlist>, post: seq<Playlist>)
    ensures var r := TogglePlaylist(selected, playlist);
      (HasId(selected, PlaylistId, playlist.id) ==>
         !HasId(r, PlaylistId, playlist.id) &&
         forall p :: p in selected && p.id != playlist.id ==> p in r)
    ensures !HasId(selected, PlaylistId, playlist.id) ==> TogglePlaylist(selected, playlist) == selected + [playlist]
    ensures HasId(pre + post, PlaylistId, playlist.id) ==>
      TogglePlaylist(pre + post, playlist) == Without(pre, PlaylistId, playlist.id) + Without(post, PlaylistId, playlist.id)
  {
    WithoutAppend(pre, post, PlaylistId, playlist.id);
  }

  /** Toggling a playlist that is not selected twice gives the selection back. */
  lemma TogglePlaylistTwice(selected: seq<Playlist>, playlist: Playlist)
    requires !HasId(selected, PlaylistId, playlist.id)
    ensures TogglePlaylist(TogglePlaylist(selected, playlist), playlist) == selected
  {
    var once := selected + [playlist];
    assert PlaylistId(once[|selected|]) == playlist.id;
    WithoutAppend(selected, [playlist], PlaylistId, playlist.id);
    WithoutAbsent(selected, PlaylistId, playlist.id);
    assert Without([playlist], PlaylistId, playlist.id) == [];
  }

  /** An id neither selected nor among the results leaves the selection as it is; an id among
      the results but not selected appends the first result with that id, and toggling it again
      gives the selection back. */
  lemma ToggleFromResultsEffect<T(!new)>(selected: seq<T>, results: seq<T>, idOf: T -> string, id: string)
    requires !HasId(selected, idOf, id)
    ensures !HasId(results, idOf, id) ==> ToggleFromResults(selected, results, idOf, id) == selected
    ensures HasId(results, idOf, id) ==>
      exists i :: 0 <= i < |results| && idOf(results[i]) == id && (forall j :: 0 <= j < i ==> idOf(results[j]) != id) &&
                  ToggleFromResults(selected, results, idOf, id) == selected + [results[i]]
    ensures ToggleFromResults(ToggleFromResults(selected, results, idOf, id), results, idOf, id) == selected
  {
    var r := Find(results, idOf, id);
    if r.Some? {
      var once := selected + [r.value];
      assert idOf(once[|selected|]) == id;
      WithoutAppend(selected, [r.value], idOf, id);
      WithoutAbsent(selected, idOf, id);
      assert Without([r.value], idOf, id) == [];
    }
  }

  /** Toggling a selected track or album removes every entry with its id, whatever the
      results. */
  lemma ToggleFromResultsSelected<T(!new)>(selected: seq<T>, results: seq<T>, idOf: T -> string, id: string)
    requires HasId(selected, idOf, id)
    ensures var r := ToggleFromResults(selected, results, idOf, id);
      !HasId(r, idOf, id) && forall x :: x in selected && idOf(x) != id ==> x in r
  {
  }

  /** The handlers, on the hook's state through its setters. */
  method HandleSelectPlaylist(library: Library, playlist: Playlist)
    modifies library
    ensures library.State() == old(library.State()).(selectedPlaylists := TogglePlaylist(old(library.selectedPlaylists), playlist))
  {
    if HasId(library.selectedPlaylists, PlaylistId, playlist.id) {
      library.SetSelectedPlaylists(Without(library.selectedPlaylists, PlaylistId, playlist.id));
    } else {
      library.SetSelectedPlaylists(library.selectedPlaylists + [playlist]);
    }
  }

  method HandleToggleTrack(library: Library, trackId: string)
    modifies library
    ensures library.State() ==
      old(library.State()).(selectedTracks := ToggleFromResults(old(library.selectedTracks), old(library.trackResults), TrackId, trackId))
  {
    if HasId(library.selectedTracks, TrackId, trackId) {
      library.SetSelectedTracks(Without(library.selectedTracks, TrackId, trackId));
      return;
    }
    var track := Find(library.trackResults, TrackId, trackId);
    if track.Some? {
      library.SetSelectedTracks(library.selectedTracks + [track.value]);
    }
  }

  method HandleToggleAlbum(library: Library, albumId: string)
    modifies library
    ensures library.State() ==
      old(library.State()).(selectedAlbums := ToggleFromResults(old(library.selectedAlbums), old(library.albumResults), AlbumId, albumId))
  {
    if HasId(library.selectedAlbums, AlbumId, albumId) {
      library.SetSelectedAlbums(Without(library.selectedAlbums, AlbumId, albumId));
      return;
    }
    var album := Find(library.albumResults, AlbumId, albumId);
    if album.Some? {
      library.SetSelectedAlbums(library.selectedAlbums + [album.value]);
    }
  }

  // ---------------------------------------------------------------------------------------
  // The selection summary

  /** `getTotalSelectionsCount`. */
  function TotalSelections(s: LibraryState): (n: nat)
    ensures n >= |s.selectedPlaylists| && n >= |s.selectedTracks| && n >= |s.selectedAlbums|
    ensures n == 0 <==> s.selectedPlaylists == [] && s.selectedTracks == [] && s.selectedAlbums == []
  {
    |s.selectedPlaylists| + |s.selectedTracks| + |s.selectedAlbums|
  }

  /** `${n} noun`, with an `s` when there is more than one. */
  function Counted(n: nat, noun: string): string {
    NatToString(n) + " " + noun + (if n > 1 then "s" else "")
  }

  /** The descriptions, in the order playlists, tracks, albums, of the non-empty selections. */
  function DescriptionParts(s: LibraryState): seq<string> {
    (if |s.selectedPlaylists| > 0 then [Counted(|s.selectedPlaylists|, "playlist")] else []) +
    (if |s.selectedTracks| > 0 then [Counted(|s.selectedTracks|, "track")] else []) +
    (if |s.selectedAlbums| > 0 then [Counted(|s.selectedAlbums|, "album")] else [])
  }

  /** `getSelectionsDescription`: each non-empty selection pushes its description, and they are
      joined with `, `. */
  method SelectionsDescription(s: LibraryState) returns (description: string)
    ensures description == Join(DescriptionParts(s), ", ")
  {
    var descriptions: seq<string> := [];
    if |s.selectedPlaylists| > 0 {
      descriptions := descriptions + [Counted(|s.selectedPlaylists|, "playlist")];
    }
    if |s.selectedTracks| > 0 {
      descriptions := descriptions + [Counted(|s.selectedTracks|, "track")];
    }
    if |s.selectedAlbums| > 0 {
      descriptions := descriptions + [Counted(|s.selectedAlbums|, "album")];
    }
    assert descriptions == DescriptionParts(s);
    description := Join(descriptions, ", ");
  }

  /** The count ends in `s` exactly when it is more than one, for a noun that does not. */
  lemma CountedPlural(n: nat, noun: string)
    requires noun != [] && noun[|noun| - 1] != 's'
    ensures var text := Counted(n, noun); text[|text| - 1] == 's' <==> n > 1
  {
  }

  /** The count starts with the number and a space. */
  lemma CountedStarts(n: nat, noun: string)
    ensures Counted(n, noun)[..|NatToString(n)| + 1] == NatToString(n) + " "
  {
    assert Counted(n, noun) == (NatToString(n) + " ") + (noun + (if n > 1 then "s" else ""));
  }

  lemma JoinNonEmpty(parts: seq<string>, sep: string)
    requires parts != [] && parts[0] != []
    ensures Join(parts, sep) != []
  {
  }

  /** The description is empty exactly when nothing is selected, that is when the count is 0. */
  lemma DescriptionEmpty(s: LibraryState)
    ensures Join(DescriptionParts(s), ", ") == "" <==> TotalSelections(s) == 0
  {
    var parts := DescriptionParts(s);
    if parts != [] {
      assert parts[0] != [] by {
        if |s.selectedPlaylists| > 0 {
          assert parts[0] == Counted(|s.selectedPlaylists|, "playlist");
        } else if |s.selectedTracks| > 0 {
          assert parts[0] == Counted(|s.selectedTracks|, "track");
        } else {
          assert parts[0] == Counted(|s.selectedAlbums|, "album");
        }
      }
      JoinNonEmpty(parts, ", ");
    }
  }

  /** One description per non-empty selection. */
  lemma DescriptionCount(s: LibraryState)
    ensures |DescriptionParts(s)| ==
      (if |s.selectedPlaylists| > 0 then 1 else 0) + (if |s.selectedTracks| > 0 then 1 else 0) +
      (if |s.selectedAlbums| > 0 then 1 else 0)
  {
  }

  /** One playlist and two tracks read `1 playlist, 2 tracks`. */
  lemma DescriptionExample(s: LibraryState, expected: string)
    requires |s.selectedPlaylists| == 1 && |s.selectedTracks| == 2 && s.selectedAlbums == []
    requires expected == "1 playlist, 2 tracks"
    ensures Join(DescriptionParts(s), ", ") == expected
  {
    OnePlaylist();
    TwoTracks();
    assert DescriptionParts(s) == [Counted(1, "playlist"), Counted(2, "track")];
    JoinPair("1 playlist", "2 tracks");
    DescriptionExampleText();
  }

  lemma OnePlaylist()
    ensures Counted(1, "playlist") == "1 playlist"
  {
    assert NatToString(1) == "1";
  }

  lemma TwoTracks()
    ensures Counted(2, "track") == "2 tracks"
  {
    assert NatToString(2) == "2";
  }

  lemma JoinPair(a: string, b: string)
    ensures Join([a, b], ", ") == a + ", " + b
  {
  }

  lemma DescriptionExampleText()
    ensures "1 playlist" + ", " + "2 tracks" == "1 playlist, 2 tracks"
  {
  }

  // ---------------------------------------------------------------------------------------
  // Generating from the saved tracks

  /** `handleGenerateFromSavedTracks`: load the saved tracks; the cards are handed on only when
      there is at least one. */
  method GenerateFromSavedTracks(library: Library, accessToken: Option<string>,
                                 load: string -> Result<seq<Track>, string>)
    returns (generated: Option<seq<Card>>)
    modifies library
    ensures var (s', cards) := LoadSavedTracksStep(old(library.State()), accessToken, load);
      library.State() == s' && generated == (if |cards| > 0 then Some(cards) else None)
  {
    var cards := library.LoadSavedTracks(accessToken, load);
    generated := if |cards| > 0 then Some(cards) else None;
  }

  /** The callback runs exactly when there is a token and the saved tracks load and are not
      empty, and it gets one card per saved track. */
  lemma SavedTracksCallback(s: LibraryState, accessToken: Option<string>,
                            load: string -> Result<seq<Track>, string>)
    ensures var (_, cards) := LoadSavedTracksStep(s, accessToken, load);
      (|cards| > 0 <==> HasToken(accessToken) && load(accessToken.value).Success? && load(accessToken.value).value != []) &&
      (|cards| > 0 ==> cards == CardBuilder.BuildCards(load(accessToken.value).value))
  {
  }

  // ---------------------------------------------------------------------------------------
  // Generating from every selection

  /** `handleGenerateFromAll`, on the selections of the render it runs in: the cards of the
      selected playlists, then of the selected tracks, then of the selected albums, each
      source skipped when its selection is empty. */
  function GenerateStep(s: LibraryState, accessToken: Option<string>,
                        playlistTracks: (string, string) -> Result<seq<Track>, string>,
                        albumTracks: (string, string) -> Result<seq<Track>, string>): (LibraryState, seq<Card>)
  {
    var (s1, playlistCards) :=
      if |s.selectedPlaylists| > 0 then SelectPlaylistsStep(s, accessToken, s.selectedPlaylists, playlistTracks)
      else (s, []);
    var trackCards := if |s.selectedTracks| > 0 then CardBuilder.BuildCards(s.selectedTracks) else [];
    var (s2, albumCards) :=
      if |s.selectedAlbums| > 0 then SelectAlbumsStep(s1, accessToken, s.selectedAlbums, albumTracks)
      else (s1, []);
    (s2, playlistCards + trackCards + albumCards)
  }

  method GenerateFromAll(library: Library, accessToken: Option<string>,
                         playlistTracks: (string, string) -> Result<seq<Track>, string>,
                         albumTracks: (string, string) -> Result<seq<Track>, string>)
    returns (generated: Option<seq<Card>>)
    modifies library
    ensures var (s', cards) := GenerateStep(old(library.State()), accessToken, playlistTracks, albumTracks);
      library.State() == s' && generated == (if cards != [] then Some(cards) else None)
  {
    ghost var s := library.State();
    var selectedPlaylists := library.selectedPlaylists;
    var selectedTracks := library.selectedTracks;
    var selectedAlbums := library.selectedAlbums;
    var allCards: seq<Card> := [];
    if |selectedPlaylists| > 0 {
      var playlistCards := library.SelectPlaylists(accessToken, selectedPlaylists, playlistTracks);
      assert (library.State(), playlistCards) == SelectPlaylistsStep(s, accessToken, s.selectedPlaylists, playlistTracks);
      assert allCards + playlistCards == playlistCards;
      allCards := allCards + playlistCards;
    }
    ghost var s1 := library.State();
    ghost var playlistCards := allCards;
    assert (s1, playlistCards) ==
      if |s.selectedPlaylists| > 0 then SelectPlaylistsStep(s, accessToken, s.selectedPlaylists, playlistTracks)
      else (s, []);
    ghost var trackCards := if |selectedTracks| > 0 then CardBuilder.BuildCards(selectedTracks) else [];
    if |selectedTracks| > 0 {
      var trackCards := CardBuilder.BuildCards(selectedTracks);
      allCards := allCards + trackCards;
    }
    assert allCards == playlistCards + trackCards;
    if |selectedAlbums| > 0 {
      var albumCards := library.SelectAlbums(accessToken, selectedAlbums, albumTracks);
      assert (library.State(), albumCards) == SelectAlbumsStep(s1, accessToken, s.selectedAlbums, albumTracks);
      allCards := allCards + albumCards;
    } else {
      assert allCards == playlistCards + trackCards + [];
    }
    assert GenerateStep(s, accessToken, playlistTracks, albumTracks) == (library.State(), allCards);
    generated := if allCards != [] then Some(allCards) else None;
  }

  /** Loading nothing gives no cards. */
  lemma MergedNothing(accessToken: string, tracksOf: (string, string) -> Result<seq<Track>, string>)
    ensures MergedCards(accessToken, [], tracksOf) == Success([])
  {
    assert TrackLists(accessToken, [], tracksOf) == [];
  }

  /** When every load succeeds the cards are the merged playlist cards, then the track cards,
      then the merged album cards, and every selection is kept. */
  lemma GenerateOrder(s: LibraryState, accessToken: string,
                      playlistTracks: (string, string) -> Result<seq<Track>, string>,
                      albumTracks: (string, string) -> Result<seq<Track>, string>)
    requires accessToken != ""
    requires MergedCards(accessToken, PlaylistIds(s.selectedPlaylists), playlistTracks).Success?
    requires MergedCards(accessToken, AlbumIds(s.selectedAlbums), albumTracks).Success?
    ensures var (s', cards) := GenerateStep(s, Some(accessToken), playlistTracks, albumTracks);
      cards == MergedCards(accessToken, PlaylistIds(s.selectedPlaylists), playlistTracks).value +
               CardBuilder.BuildCards(s.selectedTracks) +
               MergedCards(accessToken, AlbumIds(s.selectedAlbums), albumTracks).value &&
      s'.selectedPlaylists == s.selectedPlaylists && s'.selectedTracks == s.selectedTracks &&
      s'.selectedAlbums == s.selectedAlbums
  {
    var (s1, playlistCards) :=
      if |s.selectedPlaylists| > 0 then SelectPlaylistsStep(s, Some(accessToken), s.selectedPlaylists, playlistTracks)
      else (s, []);
    PlaylistPart(s, accessToken, playlistTracks);
    var (s2, albumCards) :=
      if |s.selectedAlbums| > 0 then SelectAlbumsStep(s1, Some(accessToken), s.selectedAlbums, albumTracks)
      else (s1, []);
    AlbumPart(s1, s.selectedAlbums, accessToken, albumTracks);
    assert CardBuilder.BuildCards([]) == [];
  }

  /** The playlist part of generating from everything, when the playlists load. */
  lemma PlaylistPart(s: LibraryState, accessToken: string,
                     playlistTracks: (string, string) -> Result<seq<Track>, string>)
    requires accessToken != ""
    requires MergedCards(accessToken, PlaylistIds(s.selectedPlaylists), playlistTracks).Success?
    ensures var (s1, cards) :=
      if |s.selectedPlaylists| > 0 then SelectPlaylistsStep(s, Some(accessToken), s.selectedPlaylists, playlistTracks)
      else (s, []);
      cards == MergedCards(accessToken, PlaylistIds(s.selectedPlaylists), playlistTracks).value &&
      s1.selectedPlaylists == s.selectedPlaylists && s1.selectedTracks == s.selectedTracks &&
      s1.selectedAlbums == s.selectedAlbums
  {
    if |s.selectedPlaylists| == 0 {
      MergedNothing(accessToken, playlistTracks);
      assert PlaylistIds([]) == [];
    }
  }

  /** The album part of generating from everything, when the albums load. */
  lemma AlbumPart(s1: LibraryState, albums: seq<Album>, accessToken: string,
                  albumTracks: (string, string) -> Result<seq<Track>, string>)
    requires accessToken != "" && s1.selectedAlbums == albums
    requires MergedCards(accessToken, AlbumIds(albums), albumTracks).Success?
    ensures var (s2, cards) :=
      if |albums| > 0 then SelectAlbumsStep(s1, Some(accessToken), albums, albumTracks)
      else (s1, []);
      cards == MergedCards(accessToken, AlbumIds(albums), albumTracks).value &&
      s2.selectedPlaylists == s1.selectedPlaylists && s2.selectedTracks == s1.selectedTracks &&
      s2.selectedAlbums == albums
  {
    if |albums| == 0 {
      MergedNothing(accessToken, albumTracks);
      assert AlbumIds([]) == [];
    }
  }

  /** Without an access token no load runs: the state is unchanged and only the selected tracks
      become cards. */
  lemma GenerateWithoutToken(s: LibraryState, accessToken: Option<string>,
                             playlistTracks: (string, string) -> Result<seq<Track>, string>,
                             albumTracks: (string, string) -> Result<seq<Track>, string>)
    requires !HasToken(accessToken)
    ensures GenerateStep(s, accessToken, playlistTracks, albumTracks) == (s, CardBuilder.BuildCards(s.selectedTracks))
  {
    assert SelectPlaylistsStep(s, accessToken, s.selectedPlaylists, playlistTracks) == (s, []);
    assert SelectAlbumsStep(s, accessToken, s.selectedAlbums, albumTracks) == (s, []);
    var trackCards := if |s.selectedTracks| > 0 then CardBuilder.BuildCards(s.selectedTracks) else [];
    assert trackCards == CardBuilder.BuildCards(s.selectedTracks);
    assert [] + trackCards + [] == trackCards;
  }

  /** A failed playlist load contributes no cards, and a later album load that succeeds clears
      its error: the page then shows the track and album cards and no error. */
  lemma GenerateAfterPlaylistFailure(s: LibraryState, accessToken: string,
                                     playlistTracks: (string, string) -> Result<seq<Track>, string>,
                                     albumTracks: (string, string) -> Result<seq<Track>, string>)
    requires accessToken != "" && s.selectedPlaylists != [] && s.selectedAlbums != []
    requires MergedCards(accessToken, PlaylistIds(s.selectedPlaylists), playlistTracks).Failure?
    requires MergedCards(accessToken, AlbumIds(s.selectedAlbums), albumTracks).Success?
    ensures var (s', cards) := GenerateStep(s, Some(accessToken), playlistTracks, albumTracks);
      cards == CardBuilder.BuildCards(s.selectedTracks) +
               MergedCards(accessToken, AlbumIds(s.selectedAlbums), albumTracks).value &&
      s'.error == None
  {
    var token := Some(accessToken);
    var playlistOutcome := MergedCards(accessToken, PlaylistIds(s.selectedPlaylists), playlistTracks);
    var s1 := Settled(s.(selectedPlaylists := s.selectedPlaylists), playlistOutcome);
    assert SelectPlaylistsStep(s, token, s.selectedPlaylists, playlistTracks) == (s1, []);
    var albumOutcome := MergedCards(accessToken, AlbumIds(s.selectedAlbums), albumTracks);
    var s2 := Settled(s1.(selectedAlbums := s.selectedAlbums), albumOutcome);
    assert SelectAlbumsStep(s1, token, s.selectedAlbums, albumTracks) == (s2, albumOutcome.value);
    var trackCards := if |s.selectedTracks| > 0 then CardBuilder.BuildCards(s.selectedTracks) else [];
    assert trackCards == CardBuilder.BuildCards(s.selectedTracks);
    assert GenerateStep(s, token, playlistTracks, albumTracks) == (s2, [] + trackCards + albumOutcome.value);
    assert [] + trackCards + albumOutcome.value == trackCards + albumOutcome.value;
  }
}
