/** The playlist records and the shared `playlistsState` cell's default. */
module PlaylistsState {
  import opened Wrappers
  import opened RequestStates

  /** Where a playlist was imported from; `None` on `Playlist.source` is `null`. */
  datatype Source = Spotify | Youtube

  datatype PlaylistItem = PlaylistItem(id: string, title: string, cover: Option<string>)

  /** `items` is absent until the playlist's items are loaded or pushed. */
  datatype Playlist = Playlist(
    id: string,
    name: string,
    cover: Option<string>,
    source: Option<Source>,
    sourceUrl: Option<string>,
    createdBy: string,
    items: Option<seq<PlaylistItem>>)

  /** The body of `GET /playlists`: `{ playlists }`. */
  datatype PlaylistsData = PlaylistsData(playlists: seq<Playlist>)

  /** The default of the `playlists` atom: the pending variant. */
  function PlaylistsDefault(): (r: RequestState<PlaylistsData>)
    ensures Consistent(r) && r.status == Pending
    ensures !r.isFetching && !r.isFetched
    ensures r.data.None? && r.error.None?
  {
    Initial()
  }
}
