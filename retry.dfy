/**
 * The retry policy registered on the HTTP instance: which failed attempts
 * are retried, and the "last error" record that each retried failure with a
 * response leaves on the request configuration, so that a later attempt
 * that fails without a response can still be classified by it.
 */
module Retry {
  import opened Wrappers
  import opened Values

  /** An HTTP response as the transport reports it. */
  datatype Response = Response(status: int, data: Json, headers: Headers)

  /**
   * A failed attempt. `networkOrIdempotent` is the transport library's own
   * network-or-idempotent-request predicate, which is not modelled; `response`
   * is absent when no response was received; `message` is the transport
   * error's own message.
   */
  datatype AttemptFailure = AttemptFailure(networkOrIdempotent: bool, response: Option<Response>, message: string)

  /** What one attempt produced. */
  datatype Outcome = Succeeded(response: Response) | Failed(failure: AttemptFailure)

  /** The status of a failure's response, with a missing response counting as 0. */
  function StatusOrZero(f: AttemptFailure): int {
    if f.response.Some? then f.response.value.status else 0
  }

  /**
   * The retry condition: the network predicate, or status 429, or a status of
   * at least 500 (a missing response counting as status 0).
   */
  function RetryCondition(f: AttemptFailure): (retry: bool)
    ensures f.response.None? ==> (retry <==> f.networkOrIdempotent)
    ensures f.response.Some? ==>
      (retry <==> f.networkOrIdempotent || f.response.value.status == 429 || f.response.value.status >= 500)
    ensures f.response.Some? && f.response.value.status < 500 && f.response.value.status != 429 ==>
      (retry <==> f.networkOrIdempotent)
  {
    f.networkOrIdempotent
    || (f.response.Some? && f.response.value.status == 429)
    || StatusOrZero(f) >= 500
  }

  /**
   * The retry hook: a failure that carries a response replaces the stash by
   * that response's status, body and headers; one without leaves it as it was.
   */
  function OnRetry(stash: Option<Response>, f: AttemptFailure): (next: Option<Response>)
    ensures f.response.Some? ==> next == f.response
    ensures f.response.None? ==> next == stash
  {
    if f.response.Some? then
      Some(Response(f.response.value.status, f.response.value.data, f.response.value.headers))
    else
      stash
  }

  /** The stash after the retry hook has run on each of `retried`, in order. */
  function StashAfter(stash: Option<Response>, retried: seq<AttemptFailure>): Option<Response>
    decreases |retried|
  {
    if retried == [] then stash
    else OnRetry(StashAfter(stash, retried[..|retried| - 1]), retried[|retried| - 1])
  }

  /** `j` is the last of the `retried` failures that carried a response. */
  predicate LastWithResponse(retried: seq<AttemptFailure>, j: int) {
    && 0 <= j < |retried|
    && retried[j].response.Some?
    && forall k :: j < k < |retried| ==> retried[k].response.None?
  }

  /**
   * After any sequence of retried failures the stash holds the response of the
   * last failure that had one, and the initial stash when none had one.
   */
  lemma {:induction false} StashHoldsLastResponse(stash: Option<Response>, retried: seq<AttemptFailure>)
    ensures (forall j :: 0 <= j < |retried| ==> retried[j].response.None?) ==>
      StashAfter(stash, retried) == stash
    ensures forall j :: LastWithResponse(retried, j) ==> StashAfter(stash, retried) == retried[j].response
    decreases |retried|
  {
    if retried != [] {
      var n := |retried| - 1;
      var prefix := retried[..n];
      StashHoldsLastResponse(stash, prefix);
      assert StashAfter(stash, retried) == OnRetry(StashAfter(stash, prefix), retried[n]);
      if retried[n].response.Some? {
        // Any earlier index would need retried[n] to carry no response.
        forall j | LastWithResponse(retried, j) ensures j == n {
        }
      } else {
        forall j | LastWithResponse(retried, j) ensures LastWithResponse(prefix, j) {
          assert j != n;
          assert prefix[j] == retried[j];
          forall k | j < k < n ensures prefix[k].response.None? {
            assert prefix[k] == retried[k];
          }
        }
        assert (forall j :: 0 <= j < |retried| ==> retried[j].response.None?) ==>
          (forall j :: 0 <= j < n ==> prefix[j].response.None?);
      }
    }
  }

  /** Appending one retried failure applies the retry hook once more. */
  lemma StashAfterSnoc(stash: Option<Response>, retried: seq<AttemptFailure>, f: AttemptFailure)
    ensures StashAfter(stash, retried + [f]) == OnRetry(StashAfter(stash, retried), f)
  {
    assert (retried + [f])[..|retried|] == retried;
  }
}
