/**
 * The circuit-breaker Faraday middleware (`HTTPigeon::Middleware::CircuitBreaker`): once a
 * request completes, it raises `FailedRequestError` for a failed exchange, so that the
 * fuse wrapped around the request counts it, and lets every other exchange through.
 */
module MiddlewareAdapter {
  import opened Wrappers
  import opened BreakerConfig
  import Breaker

  /** The request URL: the whole of it and its path. */
  datatype Url = Url(text: string, path: string)

  /** The parts of Faraday's `env` the middleware reads once the response is in. */
  datatype Env = Env(
    status: Option<int>,
    responseHeaders: map<string, string>,
    body: string,
    httpMethod: string,
    url: Url,
    requestHeaders: map<string, string>,
    requestBody: string)

  /** The `request` part of the error payload (the decoded query parameters are left out). */
  datatype RequestValues = RequestValues(
    httpMethod: string,
    url: string,
    urlPath: string,
    headers: map<string, string>,
    body: string)

  /** `response_values`: the payload `FailedRequestError` carries. */
  datatype ResponseValues = ResponseValues(
    status: Option<int>,
    headers: map<string, string>,
    body: string,
    request: RequestValues)

  datatype FailedRequestError = FailedRequestError(values: ResponseValues)

  /** `failed_request?`: no status at all, a server error, or a watched status. */
  predicate FailedRequest(c: FuseConfig, status: Option<int>) {
    status.None? || status.value >= 500 || status.value in c.errorCodesWatchlist
  }

  /** `response_values(env)`: copies the response and the request out of `env`. */
  function ResponseValuesOf(env: Env): (v: ResponseValues)
    ensures v.status == env.status && v.headers == env.responseHeaders && v.body == env.body
    ensures v.request.httpMethod == env.httpMethod && v.request.headers == env.requestHeaders
    ensures v.request.body == env.requestBody
    ensures v.request.url == env.url.text && v.request.urlPath == env.url.path
  {
    ResponseValues(env.status, env.responseHeaders, env.body,
      RequestValues(env.httpMethod, env.url.text, env.url.path, env.requestHeaders, env.requestBody))
  }

  /**
   * `on_complete`: the error raised for a failed exchange, carrying the exchange's values;
   * None when the exchange passes.
   */
  function OnComplete(c: FuseConfig, env: Env): (raised: Option<FailedRequestError>)
    ensures raised.Some? <==> FailedRequest(c, env.status)
    ensures raised.Some? ==> raised.value.values == ResponseValuesOf(env)
  {
    if FailedRequest(c, env.status) then Some(FailedRequestError(ResponseValuesOf(env))) else None
  }

  /**
   * How statuses are classified: a missing status and every server error fail; below 500 a
   * status fails exactly when it is watched.
   */
  lemma StatusClassification(c: FuseConfig, env: Env)
    ensures env.status.None? ==> OnComplete(c, env).Some?
    ensures env.status.Some? && env.status.value >= 500 ==> OnComplete(c, env).Some?
    ensures env.status.Some? && env.status.value < 500 ==>
              (OnComplete(c, env).Some? <==> env.status.value in c.errorCodesWatchlist)
  {
  }

  /** An unwatched successful or client-error status passes through untouched. */
  lemma UnwatchedStatusPasses(c: FuseConfig, env: Env)
    requires env.status.Some? && 200 <= env.status.value < 500
    requires env.status.value !in c.errorCodesWatchlist
    ensures OnComplete(c, env) == None
  {
  }

  /**
   * The middleware and the fuse classify statuses alike, and a status the middleware lets
   * through is one the fuse's rescue would not count either.
   */
  lemma SameClassificationAsFuse(c: FuseConfig, status: Option<int>)
    ensures FailedRequest(c, status) <==> Breaker.FailedRequest(c, status)
    ensures status.Some? ==> (FailedRequest(c, status) <==> Breaker.CountsAsFailure(c, status.value))
  {
  }
}
