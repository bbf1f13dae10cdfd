/**
 * The two interceptors of the axios instance, with their effects on the
 * session. An interception that must await the refresh stops at that await
 * and is finished by `ResumeRequest` once the awaited promise has settled.
 */
module Http {
  import opened Wrappers
  import opened Errors
  import opened Config
  import opened Credentials
  import opened Interceptors
  import opened Auth

  /** Where an outgoing request stands after the request interceptor. */
  datatype Interception =
    | Send(config: RequestConfig)     // goes to the network with this config
    | Reject(error: Error)            // the request promise rejects
    | AwaitRefresh(promise: nat)      // suspended on a refresh promise

  /** The request interceptor run on `config` at time `nowMs`. */
  method InterceptRequest(session: Session, config: RequestConfig, nowMs: int) returns (out: Interception)
    requires session.Valid()
    modifies session
    ensures session.Valid()
    ensures var d := Decide(config, old(session.StoredTokens()), nowMs);
      && (d.PassThrough? ==> out == Send(config) && unchanged(session))
      && (d.RedirectToLogin? ==>
            && out == Reject(RedirectToLoginPageError)
            && session.redirects == old(session.redirects) + 1
            && session.item == old(session.item) && session.promises == old(session.promises)
            && session.refreshRequests == old(session.refreshRequests)
            && session.refreshTokenPromise == old(session.refreshTokenPromise)
            && session.awaitingResponse == old(session.awaitingResponse))
      && (d.Attach? ==> out == Send(WithBearer(config, d.tokens.idToken)) && unchanged(session))
      && (d.RefreshThenAttach? ==>
            && out.AwaitRefresh? && session.refreshTokenPromise == Some(out.promise)
            && out.promise < |session.promises| && session.item == old(session.item))
      && (d.RefreshThenAttach? && old(session.refreshTokenPromise).Some? ==>
            out.promise == old(session.refreshTokenPromise).value && unchanged(session))
      && (d.RefreshThenAttach? && old(session.refreshTokenPromise).None? ==>
            && out.promise == |old(session.promises)|
            && session.promises == old(session.promises) + [Unsettled]
            && session.awaitingResponse
            && session.refreshRequests == old(session.refreshRequests) + [RefreshRequest(old(session.StoredTokens()).value)]
            && session.redirects == old(session.redirects))
  {
    if SkipsAuth(config) || HasAuthorization(config) {
      return Send(config);
    }
    var tokens := session.GetJWT();
    if tokens.None? {
      var e := session.RedirectToLoginPage();
      return Reject(e);
    }
    if IsExpired(tokens.value, nowMs) {
      var p := session.RefreshToken();
      return AwaitRefresh(p);
    }
    out := Send(WithBearer(config, tokens.value.idToken));
  }

  /**
   * The interceptor resumes after the refresh promise `p` settled: on
   * resolution the new tokens are stored again and attached; on rejection the
   * request rejects with the same reason.
   */
  method ResumeRequest(session: Session, config: RequestConfig, p: nat) returns (out: Interception)
    requires session.Valid() && p < |session.promises| && !session.promises[p].Unsettled?
    modifies session`item
    ensures session.Valid()
    ensures old(session.promises[p]).Resolved? ==>
      && out == Send(WithBearer(config, old(session.promises[p]).tokens.idToken))
      && session.StoredTokens() == Some(old(session.promises[p]).tokens)
    ensures old(session.promises[p]).Rejected? ==>
      out == Reject(old(session.promises[p]).reason) && session.item == old(session.item)
  {
    match session.promises[p]
    case Resolved(t) =>
      session.SetJWT(t);
      out := Send(WithBearer(config, t.idToken));
    case Rejected(e) =>
      out := Reject(e);
  }

  /** The response interceptor on a rejected response: a 401 redirects, and what is thrown. */
  method OnResponseRejected(session: Session, e: Error) returns (thrown: Error)
    modifies session`redirects
    ensures thrown == OnResponseError(e).1
    ensures session.redirects == old(session.redirects) + (if IsUnauthorized(e) then 1 else 0)
  {
    var (redirect, rethrown) := OnResponseError(e);
    if redirect {
      thrown := session.RedirectToLoginPage();
    } else {
      thrown := rethrown;
    }
  }

  /**
   * An authenticated request with expired tokens: exactly one refresh request
   * is sent, and once it responds the request goes out with the new id token.
   */
  method ExpiredTokenScenario(session: Session, config: RequestConfig, nowMs: int, renewed: Tokens)
    returns (out: Interception)
    requires session.Valid() && session.refreshTokenPromise.None?
    requires !SkipsAuth(config) && !HasAuthorization(config)
    requires session.StoredTokens().Some? && IsExpired(session.StoredTokens().value, nowMs)
    modifies session
    ensures |session.refreshRequests| == |old(session.refreshRequests)| + 1
    ensures out == Send(WithBearer(config, renewed.idToken))
    ensures Headers(out.config)["Authorization"] == "Bearer " + renewed.idToken
  {
    var suspended := InterceptRequest(session, config, nowMs);
    session.RefreshResponded(renewed);
    out := ResumeRequest(session, config, suspended.promise);
  }
}
