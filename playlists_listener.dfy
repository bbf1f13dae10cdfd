/**
 * The two push-event reducers that keep the shared `playlists` cell up to
 * date, and the two subscriptions that feed them. Each reducer, wrapped in
 * `produce`, is a function from the old state to the new one.
 */
module PlaylistsListener {
  import opened Wrappers
  import opened RequestStates
  import opened PlaylistsState
  import opened WebSocket
  import RequestHooks

  /** `playlists.find(p => p.id === id)`, as the index of the first match. */
  function FindById(playlists: seq<Playlist>, id: string): (r: Option<nat>)
    ensures r.Some? ==> r.value < |playlists| && playlists[r.value].id == id
    ensures r.Some? ==> forall j :: 0 <= j < r.value ==> playlists[j].id != id
    ensures r.None? <==> forall j :: 0 <= j < |playlists| ==> playlists[j].id != id
    decreases |playlists|
  {
    if |playlists| == 0 then None
    else if playlists[0].id == id then Some(0)
    else match FindById(playlists[1..], id)
      case None => None
      case Some(k) => Some(k + 1)
  }

  /** The first playlist with id `id`, if any, gets `items`; the list is otherwise the same. */
  function PatchItems(playlists: seq<Playlist>, id: string, items: seq<PlaylistItem>): (r: seq<Playlist>)
    ensures |r| == |playlists|
    ensures FindById(playlists, id).None? ==> r == playlists
    ensures FindById(playlists, id).Some? ==>
      var k := FindById(playlists, id).value;
      && r[k] == playlists[k].(items := Some(items))
      && forall j :: 0 <= j < |playlists| && j != k ==> r[j] == playlists[j]
  {
    match FindById(playlists, id)
    case None => playlists
    case Some(k) => playlists[k := playlists[k].(items := Some(items))]
  }

  /** The patch touches no field but `items`, and only on a playlist with that id. */
  lemma PatchItemsOnlyTouchesItems(playlists: seq<Playlist>, id: string, items: seq<PlaylistItem>)
    ensures var r := PatchItems(playlists, id, items);
      forall j :: 0 <= j < |playlists| ==>
        && r[j].(items := playlists[j].items) == playlists[j]
        && (r[j] != playlists[j] ==> playlists[j].id == id)
  {
  }

  /**
   * `handlePlaylistsChanged`: the flags and `error` are reset as for a
   * success and the list is replaced by the pushed one, whatever the state,
   * but `status` is left as it was.
   */
  function HandlePlaylistsChanged(s: RequestState<PlaylistsData>, playlists: seq<Playlist>): (r: RequestState<PlaylistsData>)
    ensures r.data == Some(PlaylistsData(playlists))
    ensures !r.isFetching && r.isFetched && r.error.None?
    ensures r.status == s.status
  {
    s.(isFetching := false, isFetched := true, error := None, data := Some(PlaylistsData(playlists)))
  }

  /**
   * `handlePlaylistItemsChanged`: outside success nothing changes; in success
   * the items of the first playlist with the pushed id are replaced. (A
   * success state without data would make the updater throw, which leaves the
   * cell as it was.)
   */
  function HandlePlaylistItemsChanged(s: RequestState<PlaylistsData>, id: string, items: seq<PlaylistItem>): (r: RequestState<PlaylistsData>)
    ensures s.status != Success || s.data.None? ==> r == s
    ensures s.status == Success && s.data.Some? ==>
      r == s.(data := Some(PlaylistsData(PatchItems(s.data.value.playlists, id, items))))
  {
    if s.status != Success then s
    else match s.data
      case None => s
      case Some(d) => s.(data := Some(PlaylistsData(PatchItems(d.playlists, id, items))))
  }

  /**
   * The unguarded reducer breaks the four variants on every state but a
   * success: on the default cell it gives `isFetched` with status pending.
   */
  lemma PlaylistsChangedConsistentIff(s: RequestState<PlaylistsData>, playlists: seq<Playlist>)
    requires Consistent(s)
    ensures Consistent(HandlePlaylistsChanged(s, playlists)) <==> s.status == Success
  {
  }

  lemma PlaylistsChangedOnDefault(playlists: seq<Playlist>)
    ensures var r := HandlePlaylistsChanged(PlaylistsDefault(), playlists);
      r.isFetched && r.status == Pending && !Consistent(r)
  {
  }

  /** The guarded reducer keeps the four variants. */
  lemma ItemsChangedKeepsConsistent(s: RequestState<PlaylistsData>, id: string, items: seq<PlaylistItem>)
    requires Consistent(s)
    ensures Consistent(HandlePlaylistItemsChanged(s, id, items))
  {
  }

  /**
   * A pushed list replaces the old one: nothing of the previous list
   * survives unless the push carries it.
   */
  lemma PlaylistsChangedReplaces(s: RequestState<PlaylistsData>, playlists: seq<Playlist>, p: Playlist)
    requires s.data.Some? && p in s.data.value.playlists && p !in playlists
    ensures p !in HandlePlaylistsChanged(s, playlists).data.value.playlists
  {
  }

  const PlaylistsSubscription: TypeSpec := Single(PlaylistsChangedType)
  const ItemsSubscription: TypeSpec := Single(PlaylistItemsChangedType)

  /** One frame on the shared connection, seen by both subscriptions of the listener. */
  function OnFrame(s: RequestState<PlaylistsData>, payload: Payload, parse: string -> Option<WebSocketsEvent>): (r: RequestState<PlaylistsData>)
    ensures payload.BinaryPayload? ==> r == s
    ensures Consistent(s) && s.status == Success ==> Consistent(r) && r.status == Success
  {
    var afterPlaylists :=
      match OnMessage(PlaylistsSubscription, payload, parse)
      case Some(PlaylistsChanged(ps)) => HandlePlaylistsChanged(s, ps)
      case _ => s;
    match OnMessage(ItemsSubscription, payload, parse)
    case Some(PlaylistItemsChanged(id, items)) => HandlePlaylistItemsChanged(afterPlaylists, id, items)
    case _ => afterPlaylists
  }

  /** Each handler reacts to its own event type only; other frames leave the cell alone. */
  lemma OnFrameDispatch(s: RequestState<PlaylistsData>, payload: Payload, parse: string -> Option<WebSocketsEvent>)
    ensures payload.BinaryPayload? ==> OnFrame(s, payload, parse) == s
    ensures payload.TextPayload? ==>
      match parse(payload.text)
      case None => OnFrame(s, payload, parse) == s
      case Some(QueueChanged(_)) => OnFrame(s, payload, parse) == s
      case Some(PlaylistsChanged(ps)) => OnFrame(s, payload, parse) == HandlePlaylistsChanged(s, ps)
      case Some(PlaylistItemsChanged(id, items)) => OnFrame(s, payload, parse) == HandlePlaylistItemsChanged(s, id, items)
  {
  }

  /** The listener applies a frame to the shared cell through the setter. */
  method Receive(cell: RequestHooks.Cell<PlaylistsData>, payload: Payload, parse: string -> Option<WebSocketsEvent>)
    modifies cell
    ensures cell.value == OnFrame(old(cell.value), payload, parse)
  {
    cell.Set(OnFrame(cell.value, payload, parse));
  }
}
