/**
 * `useWebSocket`: the push-event union, the message filter that routes a frame
 * to a subscriber's handler, and the mount-time gate that lets the shared
 * connection open only once valid tokens are known.
 */
module WebSocket {
  import opened Wrappers
  import opened Errors
  import opened Credentials
  import opened PlaylistsState
  import Interceptors
  import opened Auth

  datatype QueueEntry = QueueEntry(title: string, duration: int, cover: Option<string>)

  /** The `type` tags of the push events. */
  datatype EventType = QueueChangedType | PlaylistsChangedType | PlaylistItemsChangedType

  datatype WebSocketsEvent =
    | QueueChanged(queue: seq<QueueEntry>)
    | PlaylistsChanged(playlists: seq<Playlist>)
    | PlaylistItemsChanged(playlistId: string, playlistItems: seq<PlaylistItem>)

  function TypeOf(e: WebSocketsEvent): EventType {
    match e
    case QueueChanged(_) => QueueChangedType
    case PlaylistsChanged(_) => PlaylistsChangedType
    case PlaylistItemsChanged(_, _) => PlaylistItemsChangedType
  }

  /** A message's `data`: a string, or a binary payload (Blob or ArrayBuffer). */
  datatype Payload = TextPayload(text: string) | BinaryPayload

  /** The declared `events.type`: one type or a list of them. */
  datatype TypeSpec = Single(t: EventType) | Many(ts: seq<EventType>)

  /** The declared types as a list: a single type is a one-element list. */
  function DeclaredTypes(spec: TypeSpec): (r: seq<EventType>)
    ensures spec.Single? ==> r == [spec.t]
    ensures spec.Many? ==> r == spec.ts
  {
    match spec
    case Single(t) => [t]
    case Many(ts) => ts
  }

  /**
   * `onMessage` of a subscriber declaring `spec`: the event its `onEvent` is
   * called with, if any. `parse` stands for `JSON.parse` of the text, `None`
   * when it throws or yields no known event.
   */
  function OnMessage(spec: TypeSpec, payload: Payload, parse: string -> Option<WebSocketsEvent>): (r: Option<WebSocketsEvent>)
    ensures r.Some? ==> payload.TextPayload? && parse(payload.text) == r && TypeOf(r.value) in DeclaredTypes(spec)
  {
    match payload
    case BinaryPayload => None
    case TextPayload(text) =>
      match parse(text)
      case None => None
      case Some(e) => if TypeOf(e) in DeclaredTypes(spec) then Some(e) else None
  }

  /**
   * The handler is called, once, with `e` exactly when the payload is a
   * string that parses to `e` and `e`'s type is declared; never otherwise.
   */
  lemma OnMessageDelivers(spec: TypeSpec, payload: Payload, parse: string -> Option<WebSocketsEvent>, e: WebSocketsEvent)
    ensures OnMessage(spec, payload, parse) == Some(e) <==>
      payload.TextPayload? && parse(payload.text) == Some(e) && TypeOf(e) in DeclaredTypes(spec)
  {
  }

  /** Non-string payloads are dropped whatever the subscriber declares. */
  lemma BinaryPayloadDropped(spec: TypeSpec, parse: string -> Option<WebSocketsEvent>)
    ensures OnMessage(spec, BinaryPayload, parse).None?
  {
  }

  /** Declaring one type behaves as declaring the one-element list of it. */
  lemma SingleIsOneElementList(t: EventType, payload: Payload, parse: string -> Option<WebSocketsEvent>)
    ensures OnMessage(Single(t), payload, parse) == OnMessage(Many([t]), payload, parse)
  {
  }

  /** A failure of the mount check redirects unless it is already the redirect's own error. */
  predicate RedirectsOnMountFailure(e: Error) {
    e != RedirectToLoginPageError
  }

  /** One `useWebSocket` hook instance. */
  class SocketHook {
    const session: Session
    /** `shouldConnect`: the shared connection may open. */
    var shouldConnect: bool
    /** The refresh promise the mount check is awaiting, if any. */
    var awaitedRefresh: Option<nat>

    constructor (session: Session)
      ensures this.session == session && !shouldConnect && awaitedRefresh.None?
    {
      this.session := session;
      shouldConnect := false;
      awaitedRefresh := None;
    }

    /**
     * The `Authorization` query parameter of the connection URL: the stored
     * id token when the hook is evaluated (`None`: `getJWT()!` throws).
     */
    function QueryToken(): (r: Option<string>)
      reads this, session
      ensures r.Some? <==> session.StoredTokens().Some?
      ensures r.Some? ==> r.value == session.StoredTokens().value.idToken
    {
      match session.StoredTokens()
      case None => None
      case Some(t) => Some(t.idToken)
    }

    /**
     * The mount check up to its first await. With no tokens it redirects and,
     * catching the redirect's own error, stays disconnected; with expired
     * tokens it awaits `refreshToken()`; otherwise it enables the connection.
     */
    method Mount(nowMs: int)
      requires session.Valid() && !shouldConnect && awaitedRefresh.None?
      modifies this, session
      ensures session.Valid()
      ensures old(session.StoredTokens()).None? ==>
        && !shouldConnect && awaitedRefresh.None?
        && session.redirects == old(session.redirects) + 1
        && session.promises == old(session.promises)
        && session.refreshRequests == old(session.refreshRequests)
        && session.item == old(session.item)
        && session.refreshTokenPromise == old(session.refreshTokenPromise)
        && session.awaitingResponse == old(session.awaitingResponse)
      ensures old(session.StoredTokens()).Some? && Interceptors.IsExpired(old(session.StoredTokens()).value, nowMs) ==>
        && !shouldConnect
        && awaitedRefresh == session.refreshTokenPromise
        && awaitedRefresh.Some? && awaitedRefresh.value < |session.promises|
        && session.redirects == old(session.redirects)
        && session.item == old(session.item)
      ensures (old(session.StoredTokens()).Some? && Interceptors.IsExpired(old(session.StoredTokens()).value, nowMs)
        && old(session.refreshTokenPromise).Some?) ==>
        && awaitedRefresh == old(session.refreshTokenPromise)
        && session.promises == old(session.promises)
        && session.refreshRequests == old(session.refreshRequests)
        && session.awaitingResponse == old(session.awaitingResponse)
      ensures (old(session.StoredTokens()).Some? && Interceptors.IsExpired(old(session.StoredTokens()).value, nowMs)
        && old(session.refreshTokenPromise).None?) ==>
        && awaitedRefresh == Some(|old(session.promises)|)
        && session.promises == old(session.promises) + [Unsettled]
        && session.refreshRequests == old(session.refreshRequests) + [RefreshRequest(old(session.StoredTokens()).value)]
        && session.awaitingResponse
      ensures old(session.StoredTokens()).Some? && !Interceptors.IsExpired(old(session.StoredTokens()).value, nowMs) ==>
        shouldConnect && awaitedRefresh.None? && unchanged(session)
    {
      var tokens := session.GetJWT();
      if tokens.None? {
        var _ := session.RedirectToLoginPage();
        return;
      }
      if Interceptors.IsExpired(tokens.value, nowMs) {
        var p := session.RefreshToken();
        awaitedRefresh := Some(p);
        return;
      }
      shouldConnect := true;
    }

    /**
     * The awaited refresh promise has settled: resolution enables the
     * connection; a rejection redirects only when its reason is not the
     * redirect error.
     */
    method RefreshSettled()
      requires session.Valid() && awaitedRefresh.Some?
      requires awaitedRefresh.value < |session.promises| && !session.promises[awaitedRefresh.value].Unsettled?
      modifies this, session`redirects
      ensures session.Valid()
      ensures awaitedRefresh.None?
      ensures var settled := old(session.promises[awaitedRefresh.value]);
        && (settled.Resolved? ==> shouldConnect && session.redirects == old(session.redirects))
        && (settled.Rejected? ==> shouldConnect == old(shouldConnect))
        && (settled.Rejected? ==>
              session.redirects == old(session.redirects) + (if RedirectsOnMountFailure(settled.reason) then 1 else 0))
    {
      var settled := session.promises[awaitedRefresh.value];
      awaitedRefresh := None;
      match settled
      case Resolved(_) =>
        shouldConnect := true;
      case Rejected(reason) =>
        if RedirectsOnMountFailure(reason) {
          var _ := session.RedirectToLoginPage();
        }
    }

    /** `onError`: any socket error sends the user to the login page. */
    method OnError() returns (thrown: Error)
      modifies session`redirects
      ensures session.redirects == old(session.redirects) + 1
      ensures thrown == RedirectToLoginPageError
    {
      thrown := session.RedirectToLoginPage();
    }
  }
}
