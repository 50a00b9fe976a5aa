/**
 * The client object: its construction-time configuration, the request
 * pipeline each call goes through (attempts, retries, the response
 * interceptor), and the two public operations with their local validation.
 */
module Client {
  import opened Wrappers
  import opened Values
  import opened Errors
  import opened Retry
  import opened Interceptors

  const DEFAULT_TIMEOUT: int := 10000
  const DEFAULT_RETRIES: int := 3
  const KEY_REQUIRED: string := "API key is required"
  const MISSING_FIELDS: string := "Missing required fields: gameId, contentType, and sourcePlayerId are required."
  const TEXT_NEEDS_CONTENT: string := "For contentType \"text\", either rawContent or eventLogUrl must be provided."
  const MISSING_ID: string := "Missing required parameter: analysisId."
  const ANALYZE_PATH: string := "/analyze"
  const RESULTS_PREFIX: string := "/results/"

  // ---------------------------------------------------------------------
  // Configuration
  // ---------------------------------------------------------------------

  /** The `retryConfig` option (the retry delay function is not modelled). */
  datatype RetryConfig = RetryConfig(retries: Option<int>)

  /** The options bag passed to the constructor; every option may be omitted. */
  datatype ClientOptions = ClientOptions(timeout: Option<int>, debug: Option<bool>, retryConfig: Option<RetryConfig>)

  /** What the HTTP instance is created with. */
  datatype Transport = Transport(timeout: int, headers: Headers)

  /** Everything the constructor settles on. */
  datatype Settings = Settings(apiKey: string, transport: Transport, retries: int, debug: bool)

  /**
   * The constructor's decisions: reject an absent or empty key; otherwise a
   * timeout of `options.timeout || 10000`, a retry count of
   * `retryConfig?.retries ?? 3`, `debug ?? false`, and exactly the JSON
   * content type and API key headers.
   */
  function Configure(apiKey: Option<string>, options: ClientOptions): (r: Result<Settings, string>)
    ensures r.Failure? <==> !Present(apiKey)
    ensures r.Failure? ==> r.error == KEY_REQUIRED
    ensures r.Success? ==> r.value.apiKey == apiKey.value
    ensures r.Success? ==>
      && r.value.transport.headers.Keys == {"Content-Type", API_KEY_HEADER}
      && r.value.transport.headers["Content-Type"] == Str("application/json")
      && r.value.transport.headers[API_KEY_HEADER] == Str(apiKey.value)
    ensures r.Success? && options.timeout.Some? && options.timeout.value != 0 ==>
      r.value.transport.timeout == options.timeout.value
    ensures r.Success? && (options.timeout.None? || options.timeout.value == 0) ==>
      r.value.transport.timeout == 10000
    ensures r.Success? && options.retryConfig.Some? && options.retryConfig.value.retries.Some? ==>
      r.value.retries == options.retryConfig.value.retries.value
    ensures r.Success? && (options.retryConfig.None? || options.retryConfig.value.retries.None?) ==>
      r.value.retries == 3
    ensures r.Success? ==> (r.value.debug <==> options.debug == Some(true))
  {
    if !Present(apiKey) then
      Failure(KEY_REQUIRED)
    else
      var key := apiKey.value;
      var timeout := if options.timeout.Some? && options.timeout.value != 0 then options.timeout.value else DEFAULT_TIMEOUT;
      var retries := if options.retryConfig.Some? then options.retryConfig.value.retries.GetOr(DEFAULT_RETRIES) else DEFAULT_RETRIES;
      var headers := map["Content-Type" := Str("application/json"), API_KEY_HEADER := Str(key)];
      Success(Settings(key, Transport(timeout, headers), retries, options.debug.GetOr(false)))
  }

  /**
   * With debug on, a request carrying the client's own headers is logged with
   * the key masked and the content type kept; the request itself goes out
   * unchanged.
   */
  lemma ClientKeyRedacted(apiKey: Option<string>, options: ClientOptions, config: map<string, Json>)
    requires Configure(apiKey, options).Success?
    requires "headers" in config && config["headers"] == Obj(Configure(apiKey, options).value.transport.headers)
    ensures var s := Configure(apiKey, options).value;
      var step := RequestInterceptor(s.debug, config);
      && step.forwarded == config
      && (step.logged.Some? ==>
            && step.logged.value["headers"].Obj?
            && step.logged.value["headers"].fields ==
                 map["Content-Type" := Str("application/json"), API_KEY_HEADER := Str(REDACTED)])
  {
    var s := Configure(apiKey, options).value;
    assert HeadersOf(config) == s.transport.headers;
    assert Truthy(s.transport.headers[API_KEY_HEADER]);
  }

  // ---------------------------------------------------------------------
  // Requests and validation
  // ---------------------------------------------------------------------

  /** An analysis request: all fields are optional until validated. */
  datatype AnalysisRequest = AnalysisRequest(
    gameId: Option<string>,
    contentType: Option<string>,
    sourcePlayerId: Option<string>,
    rawContent: Option<string>,
    eventLogUrl: Option<string>)

  /** A call handed to the HTTP instance. */
  datatype HttpCall = Post(path: string, body: AnalysisRequest) | Get(path: string)

  /** The request exists and names a game, a content type and a source player. */
  predicate HasRequiredFields(request: Option<AnalysisRequest>) {
    && request.Some?
    && Present(request.value.gameId)
    && Present(request.value.contentType)
    && Present(request.value.sourcePlayerId)
  }

  /** A text request carries inline content or an event log URL. */
  predicate HasTextContent(request: AnalysisRequest) {
    request.contentType == Some("text") ==> Present(request.rawContent) || Present(request.eventLogUrl)
  }

  /**
   * The local checks of `analyze`: the error it throws before any call, if any.
   * It fails exactly when a required field is missing or a text request has no
   * content, always with a bad request error naming the check that failed.
   */
  function ValidateAnalysis(request: Option<AnalysisRequest>): (err: Option<CyberwareApiError>)
    ensures err.None? <==> HasRequiredFields(request) && HasTextContent(request.value)
    ensures err.Some? ==> err.value.kind == BadRequest && err.value.status == Some(400)
    ensures err.Some? ==> err.value.responseData == Undefined
    ensures !HasRequiredFields(request) ==> err.Some? && err.value.message == MISSING_FIELDS
    ensures HasRequiredFields(request) && !HasTextContent(request.value) ==>
      err.Some? && err.value.message == TEXT_NEEDS_CONTENT
  {
    if request.None? || !Present(request.value.gameId) || !Present(request.value.contentType)
      || !Present(request.value.sourcePlayerId)
    then
      Some(NewBadRequestError(Some(MISSING_FIELDS), Undefined))
    else if request.value.contentType == Some("text") && !Present(request.value.rawContent)
      && !Present(request.value.eventLogUrl)
    then
      Some(NewBadRequestError(Some(TEXT_NEEDS_CONTENT), Undefined))
    else
      None
  }

  /** The local check of `getResults`: an empty id is a bad request. */
  function ValidateAnalysisId(analysisId: string): (err: Option<CyberwareApiError>)
    ensures err.None? <==> analysisId != ""
    ensures err.Some? ==>
      && err.value.kind == BadRequest && err.value.status == Some(400)
      && err.value.message == MISSING_ID && err.value.responseData == Undefined
  {
    if analysisId == "" then Some(NewBadRequestError(Some(MISSING_ID), Undefined)) else None
  }

  /** The id a results path names, if it is one. */
  function IdFromPath(path: string): Option<string> {
    if |path| >= |RESULTS_PREFIX| && path[..|RESULTS_PREFIX|] == RESULTS_PREFIX
    then Some(path[|RESULTS_PREFIX|..])
    else None
  }

  /** The results path of an id, from which the id is recovered exactly. */
  function ResultsPath(analysisId: string): (path: string)
    ensures IdFromPath(path) == Some(analysisId)
    ensures path != ANALYZE_PATH
  {
    var path := RESULTS_PREFIX + analysisId;
    assert path[..|RESULTS_PREFIX|] == RESULTS_PREFIX;
    assert path[|RESULTS_PREFIX|..] == analysisId;
    assert path[1] != ANALYZE_PATH[1];
    path
  }

  // ---------------------------------------------------------------------
  // The request pipeline
  // ---------------------------------------------------------------------

  /**
   * How one call settles, given the outcome `network(i)` of attempt `i`: every
   * attempt before the last failed, was within the retry budget and met the
   * retry condition (`retried` lists those failures); the last attempt
   * succeeded, or failed without being retried; and the call resolves as the
   * response interceptor rules on the last outcome, against the stash the
   * retried failures left.
   */
  ghost predicate Settled(network: nat -> Outcome, retries: int,
                          r: Result<Json, CyberwareApiError>, attempts: nat, retried: seq<AttemptFailure>)
  {
    && attempts == |retried| + 1
    && (forall j :: 0 <= j < |retried| ==>
          network(j) == Failed(retried[j]) && j < retries && RetryCondition(retried[j]))
    && (network(|retried|).Failed? ==> !(|retried| < retries && RetryCondition(network(|retried|).failure)))
    && r == Intercept(network(|retried|), StashAfter(None, retried))
  }

  /**
   * A call settles in only one way: the same attempt outcomes give the same
   * result, the same number of attempts and the same retried failures, so
   * repeating a call against the same responses repeats its result.
   */
  lemma SettledIsDeterministic(network: nat -> Outcome, retries: int,
                               r1: Result<Json, CyberwareApiError>, attempts1: nat, retried1: seq<AttemptFailure>,
                               r2: Result<Json, CyberwareApiError>, attempts2: nat, retried2: seq<AttemptFailure>)
    requires Settled(network, retries, r1, attempts1, retried1)
    requires Settled(network, retries, r2, attempts2, retried2)
    ensures r1 == r2 && attempts1 == attempts2 && retried1 == retried2
  {
    ShorterSettledIsPrefix(network, retries, r1, attempts1, retried1, r2, attempts2, retried2);
    ShorterSettledIsPrefix(network, retries, r2, attempts2, retried2, r1, attempts1, retried1);
    assert retried1 == retried2 by {
      forall j | 0 <= j < |retried1| ensures retried1[j] == retried2[j] {
        assert network(j) == Failed(retried1[j]) == Failed(retried2[j]);
      }
    }
  }

  /** One settled call cannot have retried fewer failures than another over the same outcomes. */
  lemma ShorterSettledIsPrefix(network: nat -> Outcome, retries: int,
                               r1: Result<Json, CyberwareApiError>, attempts1: nat, retried1: seq<AttemptFailure>,
                               r2: Result<Json, CyberwareApiError>, attempts2: nat, retried2: seq<AttemptFailure>)
    requires Settled(network, retries, r1, attempts1, retried1)
    requires Settled(network, retries, r2, attempts2, retried2)
    ensures |retried1| >= |retried2|
  {
  }

  /** A settled call makes at least one attempt and at most one more than the retry count. */
  lemma SettledWithinBudget(network: nat -> Outcome, retries: int,
                            r: Result<Json, CyberwareApiError>, attempts: nat, retried: seq<AttemptFailure>)
    requires Settled(network, retries, r, attempts, retried)
    ensures 1 <= attempts <= (if retries > 0 then retries + 1 else 1)
  {
    if |retried| > 0 {
      var last := |retried| - 1;
      assert network(last) == Failed(retried[last]) && last < retries;
    }
  }

  /**
   * A call whose every attempt fails with the same 500 response uses the
   * whole retry budget and rejects with a server error carrying that
   * status and the body.
   */
  lemma PersistentServerErrorExhaustsRetries(network: nat -> Outcome, retries: int, failure: AttemptFailure,
                                             r: Result<Json, CyberwareApiError>, attempts: nat, retried: seq<AttemptFailure>)
    requires failure.response.Some? && failure.response.value.status == 500
    requires forall j: nat :: network(j) == Failed(failure)
    requires Settled(network, retries, r, attempts, retried)
    ensures attempts == (if retries > 0 then retries + 1 else 1)
    ensures r.Failure? && r.error.kind == Server && r.error.status == Some(500)
    ensures var d := failure.response.value.data;
      r.error.responseData == (if Truthy(d) || retries > 0 then d else Undefined)
  {
    SettledWithinBudget(network, retries, r, attempts, retried);
    assert network(|retried|) == Failed(failure);
    assert RetryCondition(failure);
    StashHoldsLastResponse(None, retried);
    if retries > 0 {
      assert LastWithResponse(retried, |retried| - 1);
    }
  }

  /**
   * The carried-forward context: in any settled call whose last attempt fails
   * without a response, after a retried failure stashed a 5xx response (the
   * last retried one to carry a response), the classifier yields a server
   * error with that status and body rather than a bare network error.
   */
  lemma CarriedContextSurvives(network: nat -> Outcome, retries: int,
                               r: Result<Json, CyberwareApiError>, attempts: nat, retried: seq<AttemptFailure>, j: int)
    requires Settled(network, retries, r, attempts, retried)
    requires network(|retried|).Failed? && network(|retried|).failure.response.None?
    requires LastWithResponse(retried, j) && retried[j].response.value.status in {500, 502, 503, 504}
    ensures r.Failure? && r.error.kind == Server
    ensures r.error.status == Some(retried[j].response.value.status)
    ensures r.error.responseData == retried[j].response.value.data
  {
    StashHoldsLastResponse(None, retried);
  }

  /** A client instance: its settings never change after construction. */
  class CyberwareClient {
    const apiKey: string
    const transport: Transport
    const retries: int
    const debug: bool

    /** Binds already-checked settings to a new instance. */
    constructor (settings: Settings)
      requires settings.apiKey != ""
      ensures apiKey == settings.apiKey && transport == settings.transport
      ensures retries == settings.retries && debug == settings.debug
    {
      apiKey := settings.apiKey;
      transport := settings.transport;
      retries := settings.retries;
      debug := settings.debug;
    }

    /** `new CyberwareClient(apiKey, options)`: throws before creating anything when the key is missing. */
    static method Create(apiKey: Option<string>, options: ClientOptions) returns (r: Result<CyberwareClient, string>)
      ensures Configure(apiKey, options).Failure? ==> r == Failure(KEY_REQUIRED)
      ensures Configure(apiKey, options).Success? ==>
        && r.Success? && fresh(r.value)
        && r.value.apiKey == Configure(apiKey, options).value.apiKey
        && r.value.transport == Configure(apiKey, options).value.transport
        && r.value.retries == Configure(apiKey, options).value.retries
        && r.value.debug == Configure(apiKey, options).value.debug
    {
      var settings := Configure(apiKey, options);
      if settings.Failure? {
        return Failure(settings.error);
      }
      var c := new CyberwareClient(settings.value);
      r := Success(c);
    }

    /**
     * One call through the HTTP instance: attempt after attempt until one
     * succeeds, fails without meeting the retry condition, or the retry
     * budget is spent; each retried failure runs the retry hook on the stash,
     * and the last outcome goes through the response interceptor.
     */
    method Send(network: nat -> Outcome) returns (r: Result<Json, CyberwareApiError>, attempts: nat, ghost retried: seq<AttemptFailure>)
      ensures 1 <= attempts
      ensures forall j :: 0 <= j < attempts - 1 ==>
        network(j).Failed? && j < retries && RetryCondition(network(j).failure)
      ensures r.Success? <==> network(attempts - 1).Succeeded?
      ensures r.Success? ==> r.value == network(attempts - 1).response.data
      ensures r.Failure? ==> !(attempts - 1 < retries && RetryCondition(network(attempts - 1).failure))
      ensures Settled(network, retries, r, attempts, retried)
    {
      var stash: Option<Response> := None;
      var i: nat := 0;
      retried := [];
      while true
        invariant i == |retried|
        invariant forall j :: 0 <= j < i ==>
          network(j) == Failed(retried[j]) && j < retries && RetryCondition(retried[j])
        invariant stash == StashAfter(None, retried)
        decreases retries - i
      {
        var outcome := network(i);
        if outcome.Succeeded? {
          r := Success(outcome.response.data);
          attempts := i + 1;
          return;
        }
        var failure := outcome.failure;
        if !(i < retries && RetryCondition(failure)) {
          r := Failure(Classify(failure, stash));
          attempts := i + 1;
          return;
        }
        StashAfterSnoc(None, retried, failure);
        stash := OnRetry(stash, failure);
        retried := retried + [failure];
        i := i + 1;
      }
    }

    /**
     * `analyze(request)`: a request that fails the local checks is rejected
     * with that bad request error and no call is made; otherwise exactly one
     * POST of the unchanged request goes to the analysis path and the result
     * is what the pipeline settles on.
     */
    method Analyze(request: Option<AnalysisRequest>, network: nat -> Outcome)
      returns (r: Result<Json, CyberwareApiError>, call: Option<HttpCall>, attempts: nat, ghost retried: seq<AttemptFailure>)
      ensures ValidateAnalysis(request).Some? ==>
        r == Failure(ValidateAnalysis(request).value) && call == None && attempts == 0
      ensures ValidateAnalysis(request).None? ==>
        && request.Some?
        && call == Some(Post(ANALYZE_PATH, request.value))
        && Settled(network, retries, r, attempts, retried)
    {
      var err := ValidateAnalysis(request);
      if err.Some? {
        r, call, attempts, retried := Failure(err.value), None, 0, [];
        return;
      }
      call := Some(Post(ANALYZE_PATH, request.value));
      r, attempts, retried := Send(network);
    }

    /**
     * `getResults(analysisId)`: an empty id is rejected with a bad request
     * error and no call; otherwise exactly one GET of the id's results path,
     * and the result is what the pipeline settles on.
     */
    method GetResults(analysisId: string, network: nat -> Outcome)
      returns (r: Result<Json, CyberwareApiError>, call: Option<HttpCall>, attempts: nat, ghost retried: seq<AttemptFailure>)
      ensures analysisId == "" ==>
        r == Failure(NewBadRequestError(Some(MISSING_ID), Undefined)) && call == None && attempts == 0
      ensures analysisId != "" ==>
        && call == Some(Get(ResultsPath(analysisId)))
        && Settled(network, retries, r, attempts, retried)
    {
      var err := ValidateAnalysisId(analysisId);
      if err.Some? {
        r, call, attempts, retried := Failure(err.value), None, 0, [];
        return;
      }
      call := Some(Get(ResultsPath(analysisId)));
      r, attempts, retried := Send(network);
    }
  }
}
