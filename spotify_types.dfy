/** The records the Spotify layer passes around, and its storage keys. */
module SpotifyTypes {
  import opened Wrappers

  const AUTH_STORAGE_KEY: string := "spotify_auth"
  const PKCE_VERIFIER_KEY: string := "spotify_pkce_verifier"
  const PKCE_VERIFIER_FALLBACK_KEY: string := "spotify_pkce_verifier_fallback"

  /** The persisted token record; `expiresAt` is in epoch milliseconds. */
  datatype StoredAuth = StoredAuth(accessToken: string, refreshToken: Option<string>, expiresAt: int)

  /** The client configuration; either entry may be missing. */
  datatype Config = Config(clientId: Option<string>, redirectUri: Option<string>)

  datatype Artist = Artist(name: string)

  datatype AlbumInfo = AlbumInfo(name: string, releaseDate: string)

  /** The canonical track shape every fetcher returns. */
  datatype Track = Track(id: string, name: string, artists: seq<Artist>, album: AlbumInfo)

  datatype Playlist = Playlist(id: string, name: string, ownerName: string, trackTotal: int)

  datatype Album = Album(id: string, name: string, releaseDate: string, artists: seq<Artist>, totalTracks: int)

  /** A printable card. */
  datatype Card = Card(id: string, title: string, artist: string, year: int, spotifyUri: string)

  /** An item of a playlist page: the track sits under `track` or, in newer responses, `item`. */
  datatype PlaylistItem = PlaylistItem(track: Option<Track>, item: Option<Track>)

  /** An item of the saved-tracks page. */
  datatype SavedTrackItem = SavedTrackItem(track: Option<Track>)

  /** An artist as an album-track page lists it; the name may be missing. */
  datatype ArtistItem = ArtistItem(name: Option<string>)

  /** An item of an album-track page. */
  datatype AlbumTrackItem = AlbumTrackItem(id: string, name: string, artists: Option<seq<ArtistItem>>)

  /** The album of a track search hit. */
  datatype CandidateAlbum = CandidateAlbum(name: Option<string>, releaseDate: Option<string>, albumType: Option<string>)

  /** A track search hit considered when resolving a compilation track. */
  datatype SearchCandidate = SearchCandidate(id: string, name: string, artists: Option<seq<Artist>>, album: Option<CandidateAlbum>)
}
