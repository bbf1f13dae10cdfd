/** The server record and the shared `serversState` cell's default. */
module ServersState {
  import opened Wrappers
  import opened RequestStates

  /** The body of `GET /servers`: one server, not a list. */
  datatype Server = Server(id: string, name: string, image: string)

  /** The default of the `servers` atom: the pending variant. */
  function ServersDefault(): (r: RequestState<Server>)
    ensures Consistent(r) && r.status == Pending
    ensures !r.isFetching && !r.isFetched
    ensures r.data.None? && r.error.None?
  {
    Initial()
  }
}
