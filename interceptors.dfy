/**
 * The interceptors the client installs on its HTTP instance: the debug
 * request logger, which logs a copy of the request with the API key masked,
 * and the response interceptor, which unwraps a successful response's body
 * and turns every failure into exactly one member of the error taxonomy.
 */
module Interceptors {
  import opened Wrappers
  import opened Values
  import opened Errors
  import opened Retry

  const API_KEY_HEADER: string := "X-API-KEY"
  const REDACTED: string := "***REDACTED***"
  const UNEXPECTED: string := "An unexpected error occurred"

  // ---------------------------------------------------------------------
  // Debug request logger
  // ---------------------------------------------------------------------

  /** The headers of a request configuration, spread into a fresh object. */
  function HeadersOf(config: map<string, Json>): Headers {
    if "headers" in config && config["headers"].Obj? then config["headers"].fields else map[]
  }

  /** The copied headers with a truthy API key header replaced by the marker. */
  function RedactHeaders(h: Headers): Headers {
    if API_KEY_HEADER in h && Truthy(h[API_KEY_HEADER]) then h[API_KEY_HEADER := Str(REDACTED)] else h
  }

  /**
   * The record the debug request logger prints: every configuration field but
   * `headers` copied as is, and a copy of the headers in which a truthy API key
   * is replaced by the redaction marker.
   */
  function RedactedRecord(config: map<string, Json>): (logged: map<string, Json>)
    ensures logged.Keys == config.Keys + {"headers"}
    ensures forall k :: k in config && k != "headers" ==> logged[k] == config[k]
    ensures logged["headers"].Obj? && logged["headers"].fields.Keys == HeadersOf(config).Keys
    ensures forall k :: k in HeadersOf(config) && k != API_KEY_HEADER ==>
      logged["headers"].fields[k] == HeadersOf(config)[k]
    ensures API_KEY_HEADER in HeadersOf(config) ==>
      logged["headers"].fields[API_KEY_HEADER] ==
        (if Truthy(HeadersOf(config)[API_KEY_HEADER]) then Str(REDACTED) else HeadersOf(config)[API_KEY_HEADER])
    ensures API_KEY_HEADER in logged["headers"].fields ==>
      logged["headers"].fields[API_KEY_HEADER] == Str(REDACTED) || !Truthy(logged["headers"].fields[API_KEY_HEADER])
  {
    (map k | k in config && k != "headers" :: config[k])["headers" := Obj(RedactHeaders(HeadersOf(config)))]
  }

  /** What the request interceptor chain does with one request configuration. */
  datatype RequestStep = RequestStep(forwarded: map<string, Json>, logged: Option<map<string, Json>>)

  /**
   * The request side: with debug on, the redacted record is logged; in every
   * case the configuration is forwarded unmodified.
   */
  function RequestInterceptor(debug: bool, config: map<string, Json>): (step: RequestStep)
    ensures step.forwarded == config
    ensures step.logged.Some? <==> debug
    ensures step.logged.Some? ==> step.logged.value == RedactedRecord(config)
  {
    if debug then RequestStep(config, Some(RedactedRecord(config))) else RequestStep(config, None)
  }

  // ---------------------------------------------------------------------
  // Response interceptor
  // ---------------------------------------------------------------------

  /** `r?.status`, `r?.data` and `r?.headers` of an optional response. */
  function StatusField(r: Option<Response>): Json {
    if r.Some? then Num(r.value.status) else Undefined
  }

  function DataField(r: Option<Response>): Json {
    if r.Some? then r.value.data else Undefined
  }

  function HeadersField(r: Option<Response>): Json {
    if r.Some? then Obj(r.value.headers) else Undefined
  }

  /** The effective status `live?.status || stash?.status`. */
  function EffectiveStatus(live: Option<Response>, stash: Option<Response>): (s: Option<int>)
    ensures live.Some? && live.value.status != 0 ==> s == Some(live.value.status)
    ensures (live.None? || live.value.status == 0) && stash.Some? ==> s == Some(stash.value.status)
    ensures (live.None? || live.value.status == 0) && stash.None? ==> s == None
  {
    match Or(StatusField(live), StatusField(stash))
    case Num(n) => Some(n)
    case _ => None
  }

  /** The effective body `live?.data || stash?.data`. */
  function EffectiveData(live: Option<Response>, stash: Option<Response>): (d: Json)
    ensures live.Some? && Truthy(live.value.data) ==> d == live.value.data
    ensures (live.None? || !Truthy(live.value.data)) && stash.Some? ==> d == stash.value.data
    ensures (live.None? || !Truthy(live.value.data)) && stash.None? ==> d == Undefined
  {
    Or(DataField(live), DataField(stash))
  }

  /** The effective headers `live?.headers || stash?.headers` (a header object is always truthy). */
  function EffectiveHeaders(live: Option<Response>, stash: Option<Response>): (h: Option<Headers>)
    ensures live.Some? ==> h == Some(live.value.headers)
    ensures live.None? && stash.Some? ==> h == Some(stash.value.headers)
    ensures live.None? && stash.None? ==> h == None
  {
    match Or(HeadersField(live), HeadersField(stash))
    case Obj(m) => Some(m)
    case _ => None
  }

  /** The kind the classifier picks for an effective status. */
  function KindFor(status: Option<int>): (k: ErrorKind)
    ensures k == Server <==> status.Some? && status.value in {500, 502, 503, 504}
    ensures k == Generic <==> status.None? || status.value !in {400, 401, 403, 404, 429, 500, 502, 503, 504}
    ensures k != Generic && k != Server ==> status == FixedStatus(k)
  {
    if status == Some(400) then BadRequest
    else if status == Some(401) then Authentication
    else if status == Some(403) then Forbidden
    else if status == Some(404) then NotFound
    else if status == Some(429) then RateLimit
    else if status.Some? && status.value in {500, 502, 503, 504} then Server
    else Generic
  }

  /**
   * The failure side of the response interceptor: the switch on the effective
   * status, calling the matching constructor with the service-provided
   * message. The resulting error's kind follows the status table, its status
   * and body are exactly the effective ones, and its message is the service's
   * message when there is one (for the generic kind only when non-empty),
   * else the kind's default, else for the generic kind the transport
   * message, else a fixed fallback.
   */
  function Classify(f: AttemptFailure, stash: Option<Response>): (e: CyberwareApiError)
    ensures e.kind == KindFor(EffectiveStatus(f.response, stash))
    ensures e.status == EffectiveStatus(f.response, stash)
    ensures e.responseData == EffectiveData(f.response, stash)
    ensures var m := ErrorMessage(EffectiveData(f.response, stash));
      && (e.kind != Generic && m.Some? ==> e.message == m.value)
      && (e.kind != Generic && m.None? ==> e.message == DefaultMessage(e.kind))
      && (e.kind == Generic && Present(m) ==> e.message == m.value)
      && (e.kind == Generic && !Present(m) && f.message != "" ==> e.message == f.message)
      && (e.kind == Generic && !Present(m) && f.message == "" ==> e.message == UNEXPECTED)
  {
    var status := EffectiveStatus(f.response, stash);
    var data := EffectiveData(f.response, stash);
    var apiMessage := ErrorMessage(data);
    if status == Some(400) then NewBadRequestError(apiMessage, data)
    else if status == Some(401) then NewAuthenticationError(apiMessage, data)
    else if status == Some(403) then NewForbiddenError(apiMessage, data)
    else if status == Some(404) then NewNotFoundError(apiMessage, data)
    else if status == Some(429) then NewRateLimitError(apiMessage, data)
    else if status == Some(500) || status == Some(502) || status == Some(503) || status == Some(504) then
      NewServerError(apiMessage, status, data)
    else
      var message :=
        if Present(apiMessage) then apiMessage.value
        else if f.message != "" then f.message
        else UNEXPECTED;
      NewApiError(message, status, data)
  }

  /**
   * The response interceptor: a success resolves to exactly the response body,
   * a failure rejects with its classification against the stash.
   */
  function Intercept(o: Outcome, stash: Option<Response>): (r: Result<Json, CyberwareApiError>)
    ensures r.Success? <==> o.Succeeded?
    ensures o.Succeeded? ==> r.value == o.response.data
    ensures o.Failed? ==> r.error == Classify(o.failure, stash)
  {
    match o
    case Succeeded(response) => Success(response.data)
    case Failed(f) => Failure(Classify(f, stash))
  }

  /**
   * The status constants of the error classes and the classifier's table
   * agree: a kind with a fixed status is exactly what that status maps to,
   * and so its errors from the classifier carry that status.
   */
  lemma StatusTableMatchesClasses(k: ErrorKind)
    requires FixedStatus(k).Some?
    ensures KindFor(FixedStatus(k)) == k
  {
  }
}
