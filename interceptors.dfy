/**
 * The decisions of the two axios interceptors, as functions of the request,
 * the stored tokens and the clock. The effects they lead to (reading and
 * writing the token slot, refreshing, redirecting) are in `Session` and `Http`.
 */
module Interceptors {
  import opened Wrappers
  import opened Errors
  import opened Config
  import opened Credentials

  /** What the request interceptor does with an outgoing request. */
  datatype Decision =
    | PassThrough                  // skipAuth or an explicit Authorization header
    | RedirectToLogin              // no stored tokens
    | RefreshThenAttach            // the stored tokens have expired
    | Attach(tokens: Tokens)       // the stored tokens are still valid

  /** `moment.unix(expiresAt).isSameOrBefore()`, with the clock in milliseconds. */
  predicate IsExpired(t: Tokens, nowMs: int)
    ensures IsExpired(t, nowMs) <==> t.expiresAt <= nowMs / 1000
  {
    t.expiresAt * 1000 <= nowMs
  }

  /** The request interceptor's choice. */
  function Decide(config: RequestConfig, stored: Option<Tokens>, nowMs: int): (d: Decision)
    ensures d.PassThrough? <==> SkipsAuth(config) || HasAuthorization(config)
    ensures d.RedirectToLogin? <==> !(SkipsAuth(config) || HasAuthorization(config)) && stored.None?
    ensures d.RefreshThenAttach? <==>
      !(SkipsAuth(config) || HasAuthorization(config)) && stored.Some? && IsExpired(stored.value, nowMs)
    ensures d.Attach? <==>
      !(SkipsAuth(config) || HasAuthorization(config)) && stored.Some? && !IsExpired(stored.value, nowMs)
    ensures d.Attach? ==> d.tokens == stored.value
  {
    if SkipsAuth(config) || HasAuthorization(config) then PassThrough
    else if stored.None? then RedirectToLogin
    else if IsExpired(stored.value, nowMs) then RefreshThenAttach
    else Attach(stored.value)
  }

  /** `config.headers = { ...config.headers, Authorization: "Bearer " + idToken }`. */
  function WithBearer(config: RequestConfig, idToken: string): (r: RequestConfig)
    ensures r.Keys == config.Keys + {"headers"}
    ensures forall k :: k in config && k != "headers" ==> r[k] == config[k]
    ensures Headers(r).Keys == Headers(config).Keys + {"Authorization"}
    ensures Headers(r)["Authorization"] == "Bearer " + idToken
    ensures forall h :: h in Headers(config) && h != "Authorization" ==> Headers(r)[h] == Headers(config)[h]
  {
    config["headers" := Dict(Headers(config)["Authorization" := "Bearer " + idToken])]
  }

  /** A pass-through request never depends on the token slot or the clock. */
  lemma PassThroughReadsNoTokens(config: RequestConfig, s1: Option<Tokens>, n1: int, s2: Option<Tokens>, n2: int)
    requires SkipsAuth(config) || HasAuthorization(config)
    ensures Decide(config, s1, n1) == Decide(config, s2, n2) == PassThrough
  {
  }

  /** A request the interceptor has dressed goes through it again untouched. */
  lemma BearerRequestPassesThrough(config: RequestConfig, idToken: string, stored: Option<Tokens>, nowMs: int)
    ensures Decide(WithBearer(config, idToken), stored, nowMs) == PassThrough
  {
  }

  /** The response interceptor: whether it redirects, and what is thrown to the caller. */
  function OnResponseError(e: Error): (r: (bool, Error))
    ensures r.0 <==> IsUnauthorized(e)
    ensures r.0 ==> r.1 == RedirectToLoginPageError
    ensures !r.0 ==> r.1 == e
  {
    if IsUnauthorized(e) then (true, RedirectToLoginPageError) else (false, e)
  }
}
