# cyberware-node-sdk client core, modelled in Dafny

This project models the request/response pipeline of the Cyberware client
library (`CyberwareClient` in `src/client.ts`) and its error taxonomy
(`src/errors.ts`). The HTTP library and its retry plug-in are abstracted
away. What remains are the decisions around them, and these are modelled
and proved:

- **Construction** (`Client.Configure`, `Client.CyberwareClient.Create`): an absent or empty API key is rejected with `API key is required`. Otherwise the client sets the timeout to `options.timeout || 10000` and the retry count to `retryConfig?.retries ?? 3`. It sends exactly two default headers, `Content-Type: application/json` and `X-API-KEY: <key>`.
- **Retry policy** (`Retry`): the retry condition is the network predicate, or status 429, or a status of at least 500. The retry hook stashes `{status, data, headers}` of each retried failure that carried a response. `Retry.StashAfter` folds the hook over the retried failures. `Retry.StashHoldsLastResponse` proves that the stash is the response of the last retried failure that had one.
- **Pipeline** (`Client.CyberwareClient.Send`): a loop over abstract attempt outcomes. `network(i)` is the outcome of attempt `i`. The loop runs until an attempt succeeds, one fails without meeting the retry condition, or the retry budget is spent. The stash is an explicit accumulator threaded through the loop. The loop stands in for the retry plug-in, whose code is not part of this model.
- **Response interceptor** (`Interceptors.Classify`, `Interceptors.Intercept`): a success resolves to the response body. A failure takes its effective status and body from the live response when truthy, and otherwise from the stash. It is mapped to exactly one error kind by the status table. The message precedence is: the service's message, then the kind's default, and for the generic kind the transport error's message, then `An unexpected error occurred`.
- **Debug request logging** (`Interceptors.RedactedRecord`, `Interceptors.RequestInterceptor`): the logged copy has a truthy `X-API-KEY` replaced by `***REDACTED***`. Every other field and header is kept, and the forwarded configuration is the original one.
- **Operations** (`Client.CyberwareClient.Analyze`, `Client.CyberwareClient.GetResults`): local validation fails fast with a bad request error and makes no call. Otherwise exactly one POST to `/analyze` or GET to `/results/<id>` is made.
- **Error taxonomy** (`Errors`): one datatype carrying the base shape (message, optional status, optional body) and a kind tag. It has one constructor function per class, each with that class's default message and fixed status.

JavaScript values (response bodies, header values, request configurations)
are the datatype `Values.Json`, and JavaScript truthiness is
`Values.Truthy`. An omitted argument or property is `None` or `Undefined`.

Modules: `Wrappers` (Option and Result), `Values`, `Errors`, `Retry`,
`Interceptors`, `Client`. The network is a parameter, the function
`network: nat -> Outcome` giving the outcome of each attempt. Clocks, delays
and console output are left out (see below).

Where the design notes and the code differ, the model follows the code:
- A named-kind error built from a service message `""` keeps the empty message. The constructor default applies only to an omitted argument. Only the generic kind falls through on an empty service message, because it uses `||`.
- A timeout of `0` is replaced by the default, because the code uses `||`. An explicit retry count of `0` is kept, because it uses `??`.
- A call makes at most `retries + 1` attempts: the first attempt, then up to `retries` retries.
- `CyberwareForbiddenError` is used by the client and the tests but is not defined in `src/errors.ts`. It is inferred here by analogy with other fixed-status kinds: default message `Forbidden`, status 403.

## Model

| member | source | states |
|---|---|---|
| `Errors.NewApiError` | src/errors.ts:17-21 | the base error stores message, status and body exactly as passed; its name is `CyberwareApiError` |
| `Errors.NewAuthenticationError` | src/errors.ts:39-41 | status always 401; message is the one passed (even `""`), else `Invalid API key`; body kept |
| `Errors.NewBadRequestError` | src/errors.ts:54-56 | status always 400; message passed, else `Bad request`; body kept |
| `Errors.NewForbiddenError` | src/client.ts:175-180 | inferred class: status always 403; message passed, else `Forbidden`; body kept |
| `Errors.NewNotFoundError` | src/errors.ts:69-71 | status always 404; message passed, else `Resource not found`; body kept |
| `Errors.NewServerError` | src/errors.ts:85-91 | status is the one passed, 500 when omitted; message passed, else `Internal server error`; body kept |
| `Errors.NewRateLimitError` | src/errors.ts:104-106 | status always 429; message passed, else `Rate limit exceeded`; body kept |
| `Errors.NamesDistinguishKinds` | src/errors.ts:19 | two errors have the same `name` exactly when they are of the same class |
| `Errors.DefaultOnlyWhenOmitted` | src/errors.ts:33-106 | for every subclass the default message is used exactly when the message is omitted, and a fixed-status kind carries its fixed status |
| `Values.ErrorMessage` | src/client.ts:148-149 | the service message is present exactly when the body is an object whose `error` property is a string, and is that string |
| `Retry.RetryCondition` | src/client.ts:73-79 | retry iff the network predicate holds, or status is 429, or status is at least 500; with no response only the network predicate can fire; a status below 500 other than 429 never triggers a retry by itself |
| `Retry.OnRetry` | src/client.ts:90-97 | a failure with a response replaces the stash by that response; one without leaves the stash unchanged |
| `Retry.StashHoldsLastResponse` | src/client.ts:90-97 | after any sequence of retried failures, the stash holds the response of the last one that had a response, or the initial stash when none had one |
| `Interceptors.RedactedRecord` | src/client.ts:116-124 | the logged record keeps every non-header field, has the same header names, keeps every header but `X-API-KEY`, masks a truthy `X-API-KEY` as `***REDACTED***`; no truthy value other than the marker is logged under that header |
| `Interceptors.RequestInterceptor` | src/client.ts:113-126 | the configuration is forwarded unchanged; a record is logged exactly when debug is on, and it is the redacted record |
| `Interceptors.EffectiveStatus` | src/client.ts:144 | the live status when nonzero, else the stashed status, else none |
| `Interceptors.EffectiveData` | src/client.ts:145 | the live body when truthy, else the stashed body, else undefined |
| `Interceptors.EffectiveHeaders` | src/client.ts:146 | the live headers when there is a response, else the stashed headers, else none |
| `Interceptors.KindFor` | src/client.ts:162-219 | server kind exactly for 500, 502, 503 and 504; generic kind exactly for no status or any status outside the table; every other kind is chosen by exactly its fixed status |
| `Interceptors.Classify` | src/client.ts:137-219 | the error's kind follows the status table, its status and body are exactly the effective ones, and its message follows the precedence rules: service message (non-empty for the generic kind), kind default, transport message, `An unexpected error occurred` |
| `Interceptors.Intercept` | src/client.ts:130-221 | resolves iff the attempt succeeded, to exactly the response body; otherwise rejects with the classification |
| `Interceptors.StatusTableMatchesClasses` | src/client.ts:162-193 | the status the classifier maps to each fixed-status kind is that kind's own fixed status |
| `Client.Configure` | src/client.ts:51-70 | absent or empty key fails with `API key is required`; otherwise the key is kept, the headers are exactly the JSON content type and the key, the timeout is the option unless omitted or 0 (then 10000), the retry count is the option unless omitted (then 3), and debug is on only when set to true |
| `Client.ClientKeyRedacted` | src/client.ts:114-125 | with debug on, a request carrying the client's headers is logged with exactly `Content-Type` kept and `X-API-KEY` masked, and is forwarded unchanged |
| `Client.ValidateAnalysis` | src/client.ts:239-257 | fails iff a required field is missing or a text request has neither content nor event log URL; the failure is a 400 bad request with the message naming which check failed |
| `Client.ValidateAnalysisId` | src/client.ts:284-288 | fails iff the id is empty, with a 400 bad request `Missing required parameter: analysisId.` |
| `Client.ResultsPath` | src/client.ts:293 | the results path determines the id it was built from and is never the analysis path |
| `Client.SettledWithinBudget` | src/client.ts:69-79 | the modelled retry loop makes at least one attempt and at most one more than the retry count |
| `Client.PersistentServerErrorExhaustsRetries` | src/client.ts:69-79 | when every attempt fails with the same 500 response, the modelled loop spends the whole retry budget and rejects with a 500 server error whose body is that response's body (when it is falsy and no retry happened, `undefined`) |
| `Client.CarriedContextSurvives` | src/client.ts:90-146 | in any settled call whose last attempt fails without a response, when the last retried failure with a response carried a 5xx, the classifier yields a server error with that status and body |
| `Client.SettledIsDeterministic` | src/client.ts:130-221 | the same attempt outcomes always settle to the same result, attempt count and retried failures: no state carries over between calls |
| `Client.CyberwareClient.Create` | src/client.ts:51-103 | a missing key fails with `API key is required` and creates nothing; otherwise a fresh client holds exactly the configured settings |
| `Client.CyberwareClient.Send` | src/client.ts:69-221 | earlier attempts all failed, were within budget and met the retry condition; the last succeeded or was not retryable; the result is the interceptor on the last outcome against the stash folded over the retried failures |
| `Client.CyberwareClient.Analyze` | src/client.ts:237-264 | invalid requests are rejected with the validation error and no call; valid ones make exactly one POST of the unchanged request to `/analyze` and settle through the pipeline |
| `Client.CyberwareClient.GetResults` | src/client.ts:283-294 | an empty id is rejected with the bad request error and no call; otherwise exactly one GET to the id's results path, settled through the pipeline |

## Left out

- The HTTP library and its retry plug-in: instance creation, the exponential delay, re-dispatch, and how interceptor chains compose. Their code is not part of this model. Their network-or-idempotent-request predicate is the boolean `networkOrIdempotent` of a failure. The model applies the response interceptor exactly once per call, to the final outcome; what a caller sees if the plug-in's re-dispatch runs the interceptor again at each level is not modelled.
- Client.CyberwareClient.Send: models the retry plug-in as a loop over the abstract outcomes `network(i)`. It makes no claim about how many HTTP calls the real plug-in issues.
- Retry delays, the `retryDelay` option and the per-attempt timeout reset: these are wall-clock behaviour. The timeout value is computed but never enforced.
- Console output: the error-side debug log and the printing of the request record are I/O. Only the record the request logger would print is modelled. The computed effective headers are used only by the error-side log.
- `Error.captureStackTrace`: runtime machinery.
- The hard-coded base URL: a constant that no decision depends on.
- `src/types.ts`: it only declares types. Task handles and analysis results are passed through opaquely as `Json`. The request's other optional fields (server id, webhook URL, ruleset URL) are not modelled; they are passed through unchanged.
- Values.ErrorMessage: a non-string `error` property (a number, an object) counts as absent. JavaScript would pass it to the constructor and stringify it.
- JavaScript numbers are integers here: `NaN`, `-0` and fractions are not modelled.
- Interceptors.HeadersOf: a non-object `headers` value spreads to no headers. The model does not capture how the HTTP library's case-insensitive header object spreads.
- The retry hook and the interceptor are assumed to always receive the request configuration, as the HTTP library supplies it. A missing configuration, which would drop the stash, is not modelled.
