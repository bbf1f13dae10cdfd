/**
 * The Playlists page: the name filter over the shared `playlists` cell, the
 * fetch-on-mount guard, the create-playlist guard and the navigation that
 * follows a successful create.
 */
module PlaylistsPage {
  import opened Wrappers
  import opened Config
  import opened RequestStates
  import opened PlaylistsState
  import opened JsStrings
  import opened RequestHooks
  import opened Previous

  /** `playlists.filter(pl => pl.name.includes(filter))`. */
  function FilterByName(playlists: seq<Playlist>, filter: string): (r: seq<Playlist>)
    ensures |r| <= |playlists|
    ensures forall p :: p in r <==> p in playlists && Includes(p.name, filter)
    decreases |playlists|
  {
    if |playlists| == 0 then []
    else
      var rest := FilterByName(playlists[1..], filter);
      assert playlists == [playlists[0]] + playlists[1..];
      if Includes(playlists[0].name, filter) then [playlists[0]] + rest else rest
  }

  /** The filter keeps the original order: filtering a concatenation filters each part. */
  lemma {:induction false} FilterAppend(a: seq<Playlist>, b: seq<Playlist>, filter: string)
    ensures FilterByName(a + b, filter) == FilterByName(a, filter) + FilterByName(b, filter)
    decreases |a|
  {
    if |a| == 0 {
      assert a + b == b;
    } else {
      assert (a + b)[0] == a[0];
      assert (a + b)[1..] == a[1..] + b;
      FilterAppend(a[1..], b, filter);
    }
  }

  /** The empty filter, the page's initial one, keeps every playlist. */
  lemma {:induction false} EmptyFilterKeepsAll(playlists: seq<Playlist>)
    ensures FilterByName(playlists, "") == playlists
    decreases |playlists|
  {
    if |playlists| > 0 {
      IncludesEmpty(playlists[0].name);
      EmptyFilterKeepsAll(playlists[1..]);
      assert playlists == [playlists[0]] + playlists[1..];
    }
  }

  /** `filteredPlaylists`: the state with its list filtered; a state without data is left as it is. */
  function FilteredPlaylists(s: RequestState<PlaylistsData>, filter: string): (r: RequestState<PlaylistsData>)
    ensures s.data.None? ==> r == s
    ensures r.(data := s.data) == s
    ensures s.data.Some? ==> r.data == Some(PlaylistsData(FilterByName(s.data.value.playlists, filter)))
  {
    match s.data
    case None => s
    case Some(d) => s.(data := Some(PlaylistsData(FilterByName(d.playlists, filter))))
  }

  /** Filtering never turns a state into or out of one of the four variants. */
  lemma FilteredKeepsConsistent(s: RequestState<PlaylistsData>, filter: string)
    ensures Consistent(FilteredPlaylists(s, filter)) <==> Consistent(s)
  {
  }

  /** The mount guard: fetch unless a response is there or on its way. */
  predicate ShouldFetchOnMount(s: RequestState<PlaylistsData>)
    ensures Consistent(s) ==> (ShouldFetchOnMount(s) <==> s.data.None? && !s.isFetching)
  {
    s.status != Success && s.status != InProgress
  }

  /** On one of the four variants the guard fetches exactly when nothing is fetched or fetching. */
  lemma ShouldFetchOnMountIff(s: RequestState<PlaylistsData>)
    requires Consistent(s)
    ensures ShouldFetchOnMount(s) <==> !s.isFetched && !s.isFetching
  {
  }

  /**
   * `handleNewPlaylistCreate`'s override: none when the name trims to the
   * empty string, otherwise the name as typed, untrimmed.
   */
  function CreateOverride(name: string): (r: Option<RequestConfig>)
    ensures r.None? <==> Trim(name) == ""
    ensures r.Some? ==> r.value == map["data" := Dict(map["name" := name])]
  {
    if Trim(name) == "" then None else Some(map["data" := Dict(map["name" := name])])
  }

  /** The body of `POST /playlists`. */
  datatype CreatedPlaylist = CreatedPlaylist(playlist: Playlist)

  function PlaylistPath(id: string): string {
    "/playlist/" + id
  }

  /**
   * Where the post-create effect navigates, given the previous distinct
   * `isFetched`: only when that was `false`; the created playlist's page.
   * With no data to read the effect throws and nothing is pushed.
   */
  function NavigationTarget(prev: Option<bool>, created: RequestState<CreatedPlaylist>): (r: Option<string>)
    ensures r.Some? <==> prev == Some(false) && created.data.Some?
    ensures r.Some? ==> r.value == PlaylistPath(created.data.value.playlist.id)
  {
    if prev == Some(false) && created.data.Some? then Some(PlaylistPath(created.data.value.playlist.id)) else None
  }

  /** The cards rendered: the filtered list, only once `isFetched`. */
  function Cards(s: RequestState<PlaylistsData>, filter: string): (r: Option<seq<Playlist>>)
    ensures r.Some? <==> s.isFetched && s.data.Some?
    ensures r.Some? ==> r.value == FilterByName(s.data.value.playlists, filter)
  {
    if s.isFetched && s.data.Some? then Some(FilteredPlaylists(s, filter).data.value.playlists)
    else None
  }

  /** "Unable to fetch playlists" renders exactly when `error` is set. */
  predicate ErrorShown(s: RequestState<PlaylistsData>)
    ensures Consistent(s) && ErrorShown(s) ==> !s.isFetched && !s.isFetching && s.data.None?
  {
    s.error.Some?
  }

  /** On one of the four variants, cards render on success and the error text on failure. */
  lemma ShownIffStatus(s: RequestState<PlaylistsData>, filter: string)
    requires Consistent(s)
    ensures Cards(s, filter).Some? <==> s.status == Success
    ensures ErrorShown(s) <==> s.status == Failure
  {
  }

  /** The badge title shown before a card's name for an imported playlist. */
  function SourceTitle(source: Option<Source>): (r: Option<string>)
    ensures source.None? <==> r.None?
    ensures source == Some(Youtube) ==> r == Some("Imported from YouTube")
    ensures source == Some(Spotify) ==> r == Some("Imported from Spotify")
  {
    match source
    case None => None
    case Some(Youtube) => Some("Imported from YouTube")
    case Some(Spotify) => Some("Imported from Spotify")
  }

  class Page {
    /** `useRecoilRequest({ url: '/playlists', method: 'get' }, playlistsState)`. */
    const playlists: Hook<PlaylistsData>
    /** `useRequest({ url: '/playlists', method: 'post' })`. */
    const create: Hook<CreatedPlaylist>
    var newPlaylistName: string
    var playlistsFilter: string
    /** `usePreviousDistinct(createPlaylistState.isFetched)`. */
    var createdFetchedPrev: Tracker<bool>
    /** The paths pushed with `history.push`, oldest first. */
    var history: seq<string>

    /** The first render, over the shared atom. */
    constructor (atom: Cell<PlaylistsData>)
      ensures playlists.cell == atom && playlists.inFlight == []
      ensures playlists.configRef == map["url" := Str("/playlists"), "method" := Str("get")]
      ensures fresh(create) && fresh(create.cell) && create.cell.value == Initial() && create.inFlight == []
      ensures create.configRef == map["url" := Str("/playlists"), "method" := Str("post")]
      ensures newPlaylistName == "" && playlistsFilter == ""
      ensures createdFetchedPrev == FirstRender(false) && history == []
    {
      playlists := new Hook.Shared(map["url" := Str("/playlists"), "method" := Str("get")], atom);
      create := new Hook.Local(map["url" := Str("/playlists"), "method" := Str("post")]);
      newPlaylistName := "";
      playlistsFilter := "";
      createdFetchedPrev := FirstRender(false);
      history := [];
    }

    method SetNewPlaylistName(name: string)
      modifies this`newPlaylistName
      ensures newPlaylistName == name
    {
      newPlaylistName := name;
    }

    method SetPlaylistsFilter(filter: string)
      modifies this`playlistsFilter
      ensures playlistsFilter == filter
    {
      playlistsFilter := filter;
    }

    /** The mount effect: fetch the list unless it is there or on its way. */
    method Mount() returns (request: Option<RequestConfig>)
      modifies playlists, playlists.cell
      ensures ShouldFetchOnMount(old(playlists.cell.value)) ==>
        && request == Some(old(playlists.configRef))
        && playlists.cell.value == Started()
        && playlists.inFlight == old(playlists.inFlight) + [request.value]
        && playlists.configRef == old(playlists.configRef) && playlists.configReplacements == old(playlists.configReplacements)
      ensures !ShouldFetchOnMount(old(playlists.cell.value)) ==>
        request.None? && unchanged(playlists, playlists.cell)
    {
      if ShouldFetchOnMount(playlists.cell.value) {
        var r := playlists.Fetch(None);
        request := Some(r);
      } else {
        request := None;
      }
    }

    /** Enter in the new-playlist input. */
    method HandleNewPlaylistCreate() returns (request: Option<RequestConfig>)
      modifies create, create.cell
      ensures CreateOverride(newPlaylistName).None? ==> request.None? && unchanged(create, create.cell)
      ensures CreateOverride(newPlaylistName).Some? ==>
        && request == Some(Merge(old(create.configRef), CreateOverride(newPlaylistName)))
        && create.cell.value == Started()
        && create.inFlight == old(create.inFlight) + [request.value]
        && create.configRef == old(create.configRef) && create.configReplacements == old(create.configReplacements)
    {
      var o := CreateOverride(newPlaylistName);
      if o.Some? {
        var r := create.Fetch(o);
        request := Some(r);
      } else {
        request := None;
      }
    }

    /**
     * A re-render followed by the post-create effect, which runs when the
     * previous distinct `isFetched` has changed.
     */
    method AfterRender()
      modifies this`createdFetchedPrev, this`history
      ensures createdFetchedPrev == Observe(old(createdFetchedPrev), create.cell.value.isFetched)
      ensures var target := NavigationTarget(createdFetchedPrev.previous, create.cell.value);
        history == old(history) +
          (if createdFetchedPrev.previous != old(createdFetchedPrev.previous) && target.Some? then [target.value] else [])
    {
      var before := createdFetchedPrev.previous;
      createdFetchedPrev := Observe(createdFetchedPrev, create.cell.value.isFetched);
      if createdFetchedPrev.previous != before {
        var target := NavigationTarget(createdFetchedPrev.previous, create.cell.value);
        if target.Some? {
          history := history + [target.value];
        }
      }
    }
  }

  /**
   * From a fresh page: typing a name, pressing Enter and the create request
   * succeeding navigates once, to the created playlist's page.
   */
  method CreateThenNavigate(atom: Cell<PlaylistsData>, name: string, created: CreatedPlaylist) returns (page: Page)
    requires Trim(name) != ""
    ensures fresh(page) && page.history == [PlaylistPath(created.playlist.id)]
    ensures page.create.cell.value == Succeeded(created) && page.create.inFlight == []
  {
    page := SubmitNewPlaylist(atom, name);
    page.create.Settle(0, Ok(created));
    page.AfterRender();
  }

  /** From a fresh page: typing a name and pressing Enter starts one create request. */
  method SubmitNewPlaylist(atom: Cell<PlaylistsData>, name: string) returns (page: Page)
    requires Trim(name) != ""
    ensures fresh(page) && fresh(page.create) && fresh(page.create.cell)
    ensures page.history == [] && page.createdFetchedPrev == Observe(FirstRender(false), false)
    ensures page.create.cell.value == Started() && |page.create.inFlight| == 1
  {
    page := new Page(atom);
    page.SetNewPlaylistName(name);
    var request := page.HandleNewPlaylistCreate();
    page.AfterRender();
  }
}
