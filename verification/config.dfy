/**
 * The HTTP request configuration shared by the pages: JSON headers merged
 * with the caller's headers, optional query parameters, the bearer token
 * added to every request of the shared client, and the logout decision on
 * an unauthorised answer.
 */
module AxiosConfig {
  import opened Wrappers
  import opened Js

  /** Request headers, by name. */
  type Headers = map<string, Value>

  /** The headers every request starts with. */
  const DEFAULT_HEADERS: Headers := map["Content-Type" := Str("application/json"), "Accept" := Str("application/json")]

  /** The `params` argument: a query-parameter object, or a plain value such as the default `null`. */
  datatype ParamsArg = ParamsObject(o: Object) | Scalar(v: Value)

  /** `params && …`: an object is always truthy. */
  predicate ParamsTruthy(p: ParamsArg) {
    p.ParamsObject? || Truthy(p.v)
  }

  /** The object `Config` returns. */
  datatype RequestConfig = RequestConfig(headers: Headers, params: Option<ParamsArg>)

  /**
   * `Config(customHeaders, params)`: the JSON defaults overridden by the
   * caller's headers, and `params` only when it is truthy.
   */
  function Config(customHeaders: Headers, params: ParamsArg): (r: RequestConfig)
    ensures r.headers.Keys == customHeaders.Keys + {"Content-Type", "Accept"}
    ensures forall k :: k in customHeaders ==> r.headers[k] == customHeaders[k]
    ensures "Content-Type" !in customHeaders ==> r.headers["Content-Type"] == Str("application/json")
    ensures "Accept" !in customHeaders ==> r.headers["Accept"] == Str("application/json")
    ensures r.params.Some? <==> ParamsTruthy(params)
    ensures r.params.Some? ==> r.params.value == params
  {
    RequestConfig(DEFAULT_HEADERS + customHeaders,
                  if ParamsTruthy(params) then Some(params) else None)
  }

  /** `Config()`: exactly the two JSON headers and no parameters. */
  lemma ConfigDefaults()
    ensures Config(map[], Scalar(Null)) == RequestConfig(DEFAULT_HEADERS, None)
  {
    assert DEFAULT_HEADERS + map[] == DEFAULT_HEADERS;
  }

  /** The pages' `Config({ Authorization: … })`: three headers, the two defaults kept. */
  lemma ConfigWithAuthorization(auth: string)
    ensures var r := Config(map["Authorization" := Str(auth)], Scalar(Null));
      && r.headers.Keys == {"Content-Type", "Accept", "Authorization"}
      && r.headers["Authorization"] == Str(auth)
      && r.headers["Content-Type"] == Str("application/json")
      && r.headers["Accept"] == Str("application/json")
      && r.params.None?
  {
    var custom := map["Authorization" := Str(auth)];
    assert "Content-Type" !in custom && "Accept" !in custom;
  }

  /** A header merged in twice is the same as merged in once. */
  lemma ConfigIdempotent(customHeaders: Headers, params: ParamsArg)
    ensures Config(Config(customHeaders, params).headers, params) == Config(customHeaders, params)
  {
    var h := Config(customHeaders, params).headers;
    assert DEFAULT_HEADERS + h == h;
  }

  /**
   * The request interceptor: with a stored token (`localStorage.getItem`
   * gives null or text), a non-empty token sets `Authorization` to
   * "Bearer {token}"; no token leaves the headers as they are.
   */
  function WithToken(headers: Headers, token: Option<string>): (r: Headers)
    ensures token.Some? && token.value != "" ==> r == headers["Authorization" := Str("Bearer " + token.value)]
    ensures token.None? || token.value == "" ==> r == headers
  {
    if token.Some? && token.value != "" then headers["Authorization" := Str("Bearer " + token.value)]
    else headers
  }

  /** The interceptor only ever adds or replaces `Authorization`; every other header is kept. */
  lemma WithTokenKeepsOthers(headers: Headers, token: Option<string>)
    ensures forall k :: k in headers && k != "Authorization" ==> k in WithToken(headers, token) && WithToken(headers, token)[k] == headers[k]
    ensures WithToken(headers, token).Keys - {"Authorization"} == headers.Keys - {"Authorization"}
  {
  }

  /** A failed request: `error.response` is the server's answer, absent when none arrived. */
  datatype HttpError = HttpError(response: Option<Object>)

  /** The response interceptor: `error.response?.status === 401`. */
  predicate InterceptorLogsOut(e: HttpError) {
    e.response.Some? && StrictEquals(Get(e.response.value, "status"), Int(401))
  }

  /** `ErrorHandler`: a response is present, and its status is 401. */
  predicate ErrorHandlerLogsOut(e: HttpError) {
    if e.response.Some? then StrictEquals(Get(e.response.value, "status"), Int(401)) else false
  }

  /**
   * Both places log out on the same errors: exactly those with a response
   * whose status is the number 401. Other statuses, the text "401" and
   * network errors without a response do not log out.
   */
  lemma LogoutOnlyOn401(e: HttpError)
    ensures InterceptorLogsOut(e) <==> ErrorHandlerLogsOut(e)
    ensures InterceptorLogsOut(e) <==> e.response.Some? && Get(e.response.value, "status") == Int(401)
    ensures e.response.Some? && Get(e.response.value, "status") == Str("401") ==> !InterceptorLogsOut(e)
  {
  }
}
