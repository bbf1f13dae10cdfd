/**
 * The header's search box: whether results show, the lookup request built
 * from the trimmed query, the reset of the lookup cell on every query change,
 * the choice of what the results panel renders, and the servers fetch guard.
 */
module Header {
  import opened Wrappers
  import opened Config
  import opened RequestStates
  import opened ServersState
  import opened JsStrings
  import opened RequestHooks
  import opened Previous

  datatype LookupTrack = LookupTrack(title: string, cover: Option<string>, duration: int)

  /** A lookup hit, tagged by the server with its result class name. */
  datatype LookupResult =
    | TrackResult(track: LookupTrack)
    | PlaylistResult(name: string, cover: Option<string>, size: int, tracks: seq<LookupTrack>)

  /** The body of `GET /lookup`: `{ result }`, with `null` for no hit. */
  datatype LookupData = LookupData(result: Option<LookupResult>)

  const LookupResultTrackTag: string := "com.cssorbot.api.routes.lookup.Response.Result.Track"
  const LookupResultPlaylistTag: string := "com.cssorbot.api.routes.lookup.Response.Result.Playlist"

  /** The `type` field a result carries. */
  function TypeTag(r: LookupResult): (tag: string)
    ensures r.TrackResult? <==> tag == LookupResultTrackTag
    ensures r.PlaylistResult? <==> tag == LookupResultPlaylistTag
  {
    match r
    case TrackResult(_) => LookupResultTrackTag
    case PlaylistResult(_, _, _, _) => LookupResultPlaylistTag
  }

  /** `areSearchResultsShown`. */
  predicate AreSearchResultsShown(q: string)
    ensures AreSearchResultsShown(q) <==> exists i :: 0 <= i < |q| && !IsWhiteSpace(q[i])
  {
    TrimEmptyIff(q);
    Trim(q) != ""
  }

  /** `handleSearch`'s override: none for a blank query, otherwise `params.q` is the trimmed query. */
  function SearchOverride(q: string): (r: Option<RequestConfig>)
    ensures r.None? <==> !AreSearchResultsShown(q)
    ensures r.Some? ==> r.value == map["params" := Dict(map["q" := Trim(q)])]
  {
    if Trim(q) == "" then None else Some(map["params" := Dict(map["q" := Trim(q)])])
  }

  /** A query that differs only in leading or trailing white space searches for the same thing. */
  lemma SearchIgnoresPadding(q: string)
    ensures SearchOverride(Trim(q)) == SearchOverride(q)
  {
    TrimIdempotent(q);
  }

  /** The recipe the reset effect hands to `updateState`: the pending variant, whatever the state. */
  function ResetLookup(s: RequestState<LookupData>): (r: RequestState<LookupData>)
    ensures Consistent(r) && r.status == Pending
    ensures !r.isFetching && !r.isFetched && r.data.None? && r.error.None?
  {
    Initial()
  }

  /** What the results panel renders as the lookup result. */
  datatype Markup =
    | NoMarkup
    | NoResultsFound
    | TrackView(title: string, duration: int, cover: Option<string>)
    | PlaylistView(name: string, size: int, cover: Option<string>)

  /**
   * `lookupResultsMarkup`: nothing before a response, "No results found."
   * for a `null` result, otherwise a view chosen by the result's type tag.
   */
  function LookupMarkup(s: RequestState<LookupData>): (m: Markup)
    requires s.isFetched ==> s.data.Some?
    ensures !s.isFetched <==> m.NoMarkup?
    ensures s.isFetched ==> (m.NoResultsFound? <==> s.data.value.result.None?)
    ensures m.TrackView? ==> s.data.value.result.Some? && TypeTag(s.data.value.result.value) == LookupResultTrackTag
    ensures m.PlaylistView? ==> s.data.value.result.Some? && TypeTag(s.data.value.result.value) == LookupResultPlaylistTag
  {
    if !s.isFetched then NoMarkup
    else match s.data.value.result
      case None => NoResultsFound
      case Some(TrackResult(t)) => TrackView(t.title, t.duration, t.cover)
      case Some(PlaylistResult(name, cover, size, _)) => PlaylistView(name, size, cover)
  }

  /** The hint "Press Enter to search ..." */
  predicate HintShown(q: string, s: RequestState<LookupData>)
    ensures Consistent(s) ==> (HintShown(q, s) <==> q != "" && s.status == Pending)
  {
    q != "" && !s.isFetching && !s.isFetched && s.error.None?
  }

  /** "Searching..." */
  predicate SearchingShown(s: RequestState<LookupData>)
    ensures Consistent(s) ==> (SearchingShown(s) <==> s.status == InProgress && s.data.None?)
  {
    s.isFetching
  }

  /**
   * On one of the four variants, inside the open panel, exactly one of the
   * hint, "Searching..." and a response shows, or an error leaves it empty.
   */
  lemma PanelShowsOneThing(q: string, s: RequestState<LookupData>)
    requires Consistent(s) && AreSearchResultsShown(q)
    ensures HintShown(q, s) <==> s.status == Pending
    ensures SearchingShown(s) <==> s.status == InProgress
    ensures !LookupMarkup(s).NoMarkup? <==> s.status == Success
  {
  }

  /** The servers effect: fetch only when no response is there. */
  predicate ShouldFetchServers(s: RequestState<Server>)
    ensures Consistent(s) ==> (ShouldFetchServers(s) <==> s.data.None?)
  {
    !s.isFetched
  }

  class HeaderBar {
    var searchQuery: string
    /** `usePreviousDistinct(searchQuery)`. */
    var queryPrev: Tracker<string>
    /** `useRequest({ url: '/lookup', method: 'get' })`. */
    const lookup: Hook<LookupData>
    /** `useRecoilRequest({ url: '/servers', method: 'get' }, serversState)`. */
    const servers: Hook<Server>

    /** The first render: empty query and a fresh lookup cell. */
    constructor (serversAtom: Cell<Server>)
      ensures searchQuery == "" && queryPrev == FirstRender("")
      ensures fresh(lookup) && fresh(lookup.cell) && lookup.cell.value == Initial() && lookup.inFlight == []
      ensures lookup.configRef == map["url" := Str("/lookup"), "method" := Str("get")]
      ensures servers.cell == serversAtom && servers.inFlight == []
      ensures servers.configRef == map["url" := Str("/servers"), "method" := Str("get")]
    {
      searchQuery := "";
      queryPrev := FirstRender("");
      lookup := new Hook.Local(map["url" := Str("/lookup"), "method" := Str("get")]);
      servers := new Hook.Shared(map["url" := Str("/servers"), "method" := Str("get")], serversAtom);
    }

    /** The mount run of the effects: the servers guard; the reset effect sees no previous query. */
    method Mount() returns (request: Option<RequestConfig>)
      modifies servers, servers.cell
      ensures ShouldFetchServers(old(servers.cell.value)) ==>
        && request == Some(old(servers.configRef))
        && servers.cell.value == Started()
        && servers.inFlight == old(servers.inFlight) + [request.value]
        && servers.configRef == old(servers.configRef) && servers.configReplacements == old(servers.configReplacements)
      ensures !ShouldFetchServers(old(servers.cell.value)) ==>
        request.None? && unchanged(servers, servers.cell)
    {
      if ShouldFetchServers(servers.cell.value) {
        var r := servers.Fetch(None);
        request := Some(r);
      } else {
        request := None;
      }
    }

    /**
     * Typing: the query is set, the component re-renders, and the effect
     * that watches the previous distinct query resets the lookup cell when
     * that previous value has changed and is defined.
     */
    method SetSearchQuery(q: string)
      modifies this`searchQuery, this`queryPrev, lookup.cell
      ensures searchQuery == q && queryPrev == Observe(old(queryPrev), q)
      ensures queryPrev.previous != old(queryPrev.previous) && queryPrev.previous.Some? ==>
        lookup.cell.value == Step(old(lookup.cell.value), CellEvent.Update(ResetLookup))
      ensures !(queryPrev.previous != old(queryPrev.previous) && queryPrev.previous.Some?) ==>
        lookup.cell.value == old(lookup.cell.value)
    {
      var before := queryPrev.previous;
      searchQuery := q;
      queryPrev := Observe(queryPrev, q);
      if queryPrev.previous != before && queryPrev.previous.Some? {
        lookup.UpdateState(ResetLookup);
      }
    }

    /** Enter in the search box. */
    method HandleSearch() returns (request: Option<RequestConfig>)
      modifies lookup, lookup.cell
      ensures SearchOverride(searchQuery).None? ==> request.None? && unchanged(lookup, lookup.cell)
      ensures SearchOverride(searchQuery).Some? ==>
        && request == Some(Merge(old(lookup.configRef), SearchOverride(searchQuery)))
        && lookup.cell.value == Started()
        && lookup.inFlight == old(lookup.inFlight) + [request.value]
        && lookup.configRef == old(lookup.configRef) && lookup.configReplacements == old(lookup.configReplacements)
    {
      var o := SearchOverride(searchQuery);
      if o.Some? {
        var r := lookup.Fetch(o);
        request := Some(r);
      } else {
        request := None;
      }
    }
  }

  /** Every change of the query after the first render resets the lookup to the pending variant. */
  lemma QueryChangeResets(t: Tracker<string>, q: string)
    requires Distinct(t) && q != t.current
    ensures Observe(t, q).previous != t.previous && Observe(t, q).previous.Some?
  {
  }

  /** Re-entering the same query changes nothing, so a shown result stays. */
  lemma SameQueryKeepsResult(t: Tracker<string>)
    ensures Observe(t, t.current) == t
  {
  }
}
