/**
 * The gate around the app: on mount it finishes a login callback, accepts
 * stored tokens, or sends the user to the login page, and it renders its
 * children only once the session is established.
 */
module AuthGuard {
  import opened Wrappers
  import opened Errors
  import opened Config
  import opened Credentials
  import opened Auth
  import Interceptors
  import Http

  datatype AuthState = AuthPending | AuthSuccess

  /** `instance.post('/auth/login', { code }, { skipAuth: true })`. */
  function LoginRequest(code: string): (r: RequestConfig)
    ensures SkipsAuth(r) && !HasAuthorization(r)
    ensures "data" in r && r["data"] == Dict(map["code" := code])
  {
    map[
      "url" := Str("/auth/login"),
      "method" := Str("post"),
      "data" := Dict(map["code" := code]),
      "skipAuth" := Bool(true)]
  }

  /** The login request is sent as it is: no tokens are read and no refresh starts. */
  lemma LoginRequestPassesThrough(code: string, stored: Option<Tokens>, nowMs: int)
    ensures Interceptors.Decide(LoginRequest(code), stored, nowMs) == Interceptors.PassThrough
  {
  }

  class Guard {
    const session: Session
    var authState: AuthState
    /** `location.search`, as the address bar shows it. */
    var search: string
    /** The login requests sent, in order. */
    var loginRequests: seq<RequestConfig>
    /** A login request is on the wire and the mount procedure awaits it. */
    var awaitingLogin: bool

    constructor (session: Session, search: string)
      ensures this.session == session && this.search == search
      ensures authState == AuthPending && loginRequests == [] && !awaitingLogin
    {
      this.session := session;
      this.search := search;
      authState := AuthPending;
      loginRequests := [];
      awaitingLogin := false;
    }

    /** Children render only once the state is success. */
    predicate RendersChildren()
      reads this
    {
      authState == AuthSuccess
    }

    /**
     * The mount procedure up to its first await. `code` is the `code`
     * parameter of the query string when it parses as a single string.
     * A non-empty query is always stripped. With a code, the login request
     * is sent; without one, stored tokens give success and their absence
     * redirects to the login page, whose thrown error the procedure logs.
     */
    method Mount(code: Option<string>)
      modifies this`search, this`loginRequests, this`awaitingLogin, this`authState, session`redirects
      ensures search == ""
      ensures old(search) != "" && code.Some? ==>
        && loginRequests == old(loginRequests) + [LoginRequest(code.value)]
        && awaitingLogin && authState == old(authState)
        && session.redirects == old(session.redirects)
      ensures !(old(search) != "" && code.Some?) && session.StoredTokens().Some? ==>
        && authState == AuthSuccess
        && loginRequests == old(loginRequests) && awaitingLogin == old(awaitingLogin)
        && session.redirects == old(session.redirects)
      ensures !(old(search) != "" && code.Some?) && session.StoredTokens().None? ==>
        && authState == old(authState)
        && loginRequests == old(loginRequests) && awaitingLogin == old(awaitingLogin)
        && session.redirects == old(session.redirects) + 1
    {
      if search != "" {
        search := "";
        if code.Some? {
          loginRequests := loginRequests + [LoginRequest(code.value)];
          awaitingLogin := true;
          return;
        }
      }
      var tokens := session.GetJWT();
      if tokens.Some? {
        authState := AuthSuccess;
        return;
      }
      var _ := session.RedirectToLoginPage();
    }

    /** The login request resolves with tokens: they are stored and the children render. */
    method LoginSucceeded(t: Tokens)
      requires awaitingLogin
      modifies this`awaitingLogin, this`authState, session`item
      ensures session.StoredTokens() == Some(t)
      ensures authState == AuthSuccess && !awaitingLogin
    {
      session.SetJWT(t);
      authState := AuthSuccess;
      awaitingLogin := false;
    }

    /**
     * The login request rejects with `e`: the response interceptor runs (a
     * 401 redirects), the procedure's error is logged, and the gate stays
     * closed.
     */
    method LoginFailed(e: Error)
      requires awaitingLogin
      modifies this`awaitingLogin, session`redirects
      ensures !awaitingLogin
      ensures session.redirects == old(session.redirects) + (if IsUnauthorized(e) then 1 else 0)
    {
      var _ := Http.OnResponseRejected(session, e);
      awaitingLogin := false;
    }
  }

  /** A callback URL with a code, then a successful login, opens the gate with the new tokens stored. */
  method LoginCallback(session: Session, query: string, code: string, t: Tokens) returns (g: Guard)
    requires query != ""
    modifies session`item, session`redirects
    ensures fresh(g) && g.RendersChildren() && g.search == ""
    ensures g.loginRequests == [LoginRequest(code)]
    ensures session.StoredTokens() == Some(t) && session.redirects == old(session.redirects)
  {
    g := new Guard(session, query);
    g.Mount(Some(code));
    g.LoginSucceeded(t);
  }
}
