/**
 * The session state of `auth.ts`: the `tokens` slot of local storage, the
 * module-level `refreshTokenPromise` marker, the refresh promises handed out,
 * the refresh requests put on the wire and the navigations to the login page.
 * `refreshToken` is an event-driven machine: `RefreshToken` is a call,
 * `RefreshResponded` and `RefreshFailed` are the two ways its request settles.
 */
module Auth {
  import opened Wrappers
  import opened Errors
  import opened Config
  import opened Credentials
  import Interceptors

  /** What `getJWT` returns for the stored item: nothing when absent, empty or unreadable. */
  function ReadItem(item: Option<string>): (r: Option<Tokens>)
    ensures item.None? || item == Some("") ==> r.None?
    ensures item.Some? && item.value != "" ==> r == Decode(item.value)
  {
    match item
    case None => None
    case Some(s) => if s == "" then None else Decode(s)
  }

  /** `setJWT(t)` then `getJWT()` gives back `t`. */
  lemma ReadWhatWasWritten(t: Tokens)
    ensures ReadItem(Some(Encode(t))) == Some(t)
  {
    DecodeEncode(t);
  }

  /** The `POST /auth/refresh-token` request for the stored tokens. */
  function RefreshRequest(t: Tokens): (r: RequestConfig)
    ensures Headers(r) == map["Authorization" := "Bearer " + t.refreshToken]
    ensures HasAuthorization(r) && !SkipsAuth(r)
  {
    map[
      "url" := Str("/auth/refresh-token"),
      "method" := Str("post"),
      "headers" := Dict(map["Authorization" := "Bearer " + t.refreshToken])]
  }

  /**
   * The refresh request carries its own Authorization header, so the request
   * interceptor lets it through without reading tokens or refreshing again.
   */
  lemma RefreshRequestIsNotIntercepted(t: Tokens, stored: Option<Tokens>, nowMs: int)
    ensures Interceptors.Decide(RefreshRequest(t), stored, nowMs) == Interceptors.PassThrough
  {
  }

  /** A refresh promise: still waiting, resolved with new tokens, or rejected. */
  datatype PromiseState = Unsettled | Resolved(tokens: Tokens) | Rejected(reason: Error)

  class Session {
    /** `localStorage.getItem('tokens')`. */
    var item: Option<string>
    /** `refreshTokenPromise`: the index of the promise it holds. */
    var refreshTokenPromise: Option<nat>
    /** Every promise `refreshToken` has created, by index. */
    var promises: seq<PromiseState>
    /** A refresh request is on the wire; its promise is the one the marker holds. */
    var awaitingResponse: bool
    /** Every refresh request issued, in order. */
    var refreshRequests: seq<RequestConfig>
    /** How many times `location.href` was set to the login page. */
    var redirects: nat

    /**
     * The marker points at a created promise, and a promise is unsettled
     * exactly when it is the marker's and its request is on the wire: there is
     * never more than one refresh in flight.
     */
    ghost predicate Valid()
      reads this
    {
      && (refreshTokenPromise.Some? ==> refreshTokenPromise.value < |promises|)
      && (awaitingResponse ==> refreshTokenPromise.Some?)
      && (forall i :: 0 <= i < |promises| ==>
            (promises[i].Unsettled? <==> awaitingResponse && refreshTokenPromise == Some(i)))
      && |refreshRequests| <= |promises|
    }

    /** A page load with `stored` in local storage. */
    constructor (stored: Option<string>)
      ensures Valid()
      ensures item == stored && refreshTokenPromise.None? && promises == []
      ensures !awaitingResponse && refreshRequests == [] && redirects == 0
    {
      item := stored;
      refreshTokenPromise := None;
      promises := [];
      awaitingResponse := false;
      refreshRequests := [];
      redirects := 0;
    }

    /** The tokens `getJWT()` would return now. */
    function StoredTokens(): Option<Tokens>
      reads this`item
    {
      ReadItem(item)
    }

    /** `getJWT()`: reads the slot, never throws, changes nothing. */
    method GetJWT() returns (t: Option<Tokens>)
      ensures t == ReadItem(item)
    {
      t := ReadItem(item);
    }

    /** `setJWT(t)`. */
    method SetJWT(t: Tokens)
      modifies this`item
      ensures item == Some(Encode(t)) && StoredTokens() == Some(t)
    {
      item := Some(Encode(t));
      ReadWhatWasWritten(t);
    }

    /** `removeJWT()`. */
    method RemoveJWT()
      modifies this`item
      ensures item.None? && StoredTokens().None?
    {
      item := None;
    }

    /**
     * `redirectToLoginPage()`: navigates to the login page and never returns
     * normally; the error it throws is the returned value.
     */
    method RedirectToLoginPage() returns (thrown: Error)
      modifies this`redirects
      ensures redirects == old(redirects) + 1
      ensures thrown == RedirectToLoginPageError
    {
      redirects := redirects + 1;
      thrown := RedirectToLoginPageError;
    }

    /**
     * A call of `refreshToken()`, returning the index of the promise it
     * returns. While a marker is set the call returns the marker's promise and
     * does nothing else. Otherwise it records a new promise before anything
     * else; with no stored tokens that promise is rejected after a redirect,
     * with no request sent; else the refresh request goes on the wire.
     */
    method RefreshToken() returns (p: nat)
      requires Valid()
      modifies this`promises, this`refreshTokenPromise, this`awaitingResponse,
        this`refreshRequests, this`redirects
      ensures Valid()
      ensures p < |promises| && refreshTokenPromise == Some(p)
      ensures old(refreshTokenPromise).Some? ==>
        && p == old(refreshTokenPromise).value
        && promises == old(promises) && awaitingResponse == old(awaitingResponse)
        && refreshRequests == old(refreshRequests) && redirects == old(redirects)
      ensures old(refreshTokenPromise).None? && old(StoredTokens()).None? ==>
        && p == |old(promises)| && promises == old(promises) + [Rejected(RedirectToLoginPageError)]
        && !awaitingResponse && refreshRequests == old(refreshRequests)
        && redirects == old(redirects) + 1
      ensures old(refreshTokenPromise).None? && old(StoredTokens()).Some? ==>
        && p == |old(promises)| && promises == old(promises) + [Unsettled]
        && awaitingResponse
        && refreshRequests == old(refreshRequests) + [RefreshRequest(old(StoredTokens()).value)]
        && redirects == old(redirects)
    {
      if refreshTokenPromise.Some? {
        p := refreshTokenPromise.value;
        return;
      }
      p := |promises|;
      promises := promises + [Unsettled];
      refreshTokenPromise := Some(p);
      var tokens := GetJWT();
      if tokens.None? {
        var e := RedirectToLoginPage();
        promises := promises[p := Rejected(e)];
        return;
      }
      refreshRequests := refreshRequests + [RefreshRequest(tokens.value)];
      awaitingResponse := true;
    }

    /**
     * The refresh request resolves with new tokens: they are stored, the
     * promise resolves with them and the marker is cleared.
     */
    method RefreshResponded(t: Tokens)
      requires Valid() && awaitingResponse
      modifies this`item, this`promises, this`refreshTokenPromise, this`awaitingResponse
      ensures Valid()
      ensures StoredTokens() == Some(t)
      ensures promises == old(promises)[old(refreshTokenPromise).value := Resolved(t)]
      ensures refreshTokenPromise.None? && !awaitingResponse
    {
      var p := refreshTokenPromise.value;
      assert forall i :: 0 <= i < |promises| && i != p ==> !promises[i].Unsettled?;
      SetJWT(t);
      promises := promises[p := Resolved(t)];
      refreshTokenPromise := None;
      awaitingResponse := false;
    }

    /**
     * The refresh request rejects with `e`. The response interceptor redirects
     * first when `e` is a 401; then the tokens are removed, the login redirect
     * is issued and the promise rejects. The marker is NOT cleared, so later
     * calls keep returning this rejected promise.
     */
    method RefreshFailed(e: Error)
      requires Valid() && awaitingResponse
      modifies this`item, this`promises, this`awaitingResponse, this`redirects
      ensures Valid()
      ensures item.None?
      ensures redirects == old(redirects) + (if IsUnauthorized(e) then 2 else 1)
      ensures promises == old(promises)[old(refreshTokenPromise).value := Rejected(RedirectToLoginPageError)]
      ensures refreshTokenPromise == old(refreshTokenPromise) && !awaitingResponse
    {
      var p := refreshTokenPromise.value;
      var (redirect, _) := Interceptors.OnResponseError(e);
      if redirect {
        var _ := RedirectToLoginPage();
      }
      RemoveJWT();
      var reason := RedirectToLoginPage();
      promises := promises[p := Rejected(reason)];
      awaitingResponse := false;
    }
  }

  /**
   * Single flight: a second call that arrives while the first one's request
   * is in flight gets the same promise, and only one request is sent.
   */
  method SingleFlight(session: Session) returns (first: nat, second: nat)
    requires session.Valid() && session.refreshTokenPromise.None? && session.StoredTokens().Some?
    modifies session
    ensures session.Valid()
    ensures first == second == |old(session.promises)|
    ensures |session.refreshRequests| == |old(session.refreshRequests)| + 1
  {
    first := session.RefreshToken();
    second := session.RefreshToken();
  }
}
