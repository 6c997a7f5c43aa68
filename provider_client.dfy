/**
 * The provider HTTP client (provider_client.py): a POST retried a fixed
 * number of times with a linearly growing pause after each failure.
 * Seconds of back-off are counted here in whole milliseconds.
 */
module ProviderClient {
  import opened Wrappers
  import opened Json
  import opened Http

  /** The reply to attempt number `k` (numbered from 1). */
  type Replies = nat -> Reply

  /** An attempt succeeds when a response arrives, passes `raise_for_status` and its body decodes. */
  predicate AttemptSucceeds(reply: Reply) {
    reply.Response? && !RaisesForStatus(reply.status) && reply.body.Some?
  }

  /** What an attempt raises, as far as the caller can tell. */
  datatype Failure = HttpError(status: int) | InvalidJson | RequestFailed

  function FailureOf(reply: Reply): Failure
    requires !AttemptSucceeds(reply)
  {
    match reply
    case NoResponse => RequestFailed
    case Response(status, _) => if RaisesForStatus(status) then HttpError(status) else InvalidJson
  }

  /**
   * How `post_with_retries` ends: with the decoded body, by re-raising the
   * last attempt's exception, or, when no attempt was made, by raising
   * `None` (a `TypeError`).
   */
  datatype RetryError = LastFailure(f: Failure) | NothingToRaise

  /** The outcome of attempts `k` to `retries`, given the failure so far. */
  function Attempts(retries: int, replies: Replies, k: nat, last: Option<Failure>): Result<Json, RetryError>
    requires k >= 1
    decreases retries - k + 1
  {
    if k > retries then (if last.Some? then Err(LastFailure(last.value)) else Err(NothingToRaise))
    else if AttemptSucceeds(replies(k)) then Ok(replies(k).body.value)
    else Attempts(retries, replies, k + 1, Some(FailureOf(replies(k))))
  }

  /** The first attempt at or after `k` that succeeds, if any does up to `retries`. */
  predicate SomeSuccessFrom(retries: int, replies: Replies, k: nat) {
    exists j :: k <= j <= retries && AttemptSucceeds(replies(j))
  }

  /**
   * `post_with_retries` with attempts numbered 1 to `retries`: returns after
   * the first success; after each failed attempt `k` it sleeps
   * `backoff * k`; when every attempt fails it raises the last one's
   * exception.
   */
  method PostWithRetries(retries: int, backoffMs: nat, replies: Replies)
    returns (r: Result<Json, RetryError>, made: nat, sleeps: seq<nat>)
    ensures r == Attempts(retries, replies, 1, None)
    ensures made <= (if retries < 0 then 0 else retries)
    ensures r.Ok? ==> made >= 1 && AttemptSucceeds(replies(made)) && r.value == replies(made).body.value
    ensures forall j :: 1 <= j < made ==> !AttemptSucceeds(replies(j))
    ensures r.Err? ==> made == (if retries < 0 then 0 else retries)
    ensures r.Err? ==> forall j :: 1 <= j <= made ==> !AttemptSucceeds(replies(j))
    ensures r.Err? && made >= 1 ==> r.error == LastFailure(FailureOf(replies(made)))
    ensures made == 0 ==> r == Err(NothingToRaise)
    ensures |sleeps| == (if r.Ok? then made - 1 else made)
    ensures forall i :: 0 <= i < |sleeps| ==> sleeps[i] == backoffMs * (i + 1)
  {
    var last: Option<Failure> := None;
    made := 0;
    sleeps := [];
    var attempt := 1;
    while attempt <= retries
      invariant 1 <= attempt && made == attempt - 1
      invariant retries >= 0 ==> attempt <= retries + 1
      invariant retries < 0 ==> attempt == 1
      invariant Attempts(retries, replies, 1, None) == Attempts(retries, replies, attempt, last)
      invariant forall j :: 1 <= j < attempt ==> !AttemptSucceeds(replies(j))
      invariant last.None? <==> made == 0
      invariant made >= 1 ==> last == Some(FailureOf(replies(made)))
      invariant |sleeps| == made
      invariant forall i :: 0 <= i < |sleeps| ==> sleeps[i] == backoffMs * (i + 1)
      decreases retries - attempt + 1
    {
      made := attempt;
      var reply := replies(attempt);
      if AttemptSucceeds(reply) {
        return Ok(reply.body.value), made, sleeps;
      }
      last := Some(FailureOf(reply));
      sleeps := sleeps + [backoffMs * attempt];
      attempt := attempt + 1;
    }
    if last.None? {
      return Err(NothingToRaise), made, sleeps;
    }
    r := Err(LastFailure(last.value));
  }

  /** A success is never followed by more attempts: the body returned is the first successful one. */
  lemma {:induction false} AttemptsFirstSuccess(retries: int, replies: Replies, k: nat, last: Option<Failure>)
    requires k >= 1
    ensures Attempts(retries, replies, k, last).Ok? <==> SomeSuccessFrom(retries, replies, k)
    decreases retries - k + 1
  {
    if k <= retries && !AttemptSucceeds(replies(k)) {
      AttemptsFirstSuccess(retries, replies, k + 1, Some(FailureOf(replies(k))));
      if SomeSuccessFrom(retries, replies, k) {
        var j :| k <= j <= retries && AttemptSucceeds(replies(j));
        assert j != k;
      }
    }
  }

  /** With a positive back-off the pauses strictly grow. */
  lemma SleepsIncrease(backoffMs: nat, sleeps: seq<nat>)
    requires backoffMs > 0
    requires forall i :: 0 <= i < |sleeps| ==> sleeps[i] == backoffMs * (i + 1)
    ensures forall i, j :: 0 <= i < j < |sleeps| ==> sleeps[i] < sleeps[j]
  {
    forall i, j | 0 <= i < j < |sleeps|
      ensures sleeps[i] < sleeps[j]
    {
      assert backoffMs * (j + 1) == backoffMs * (i + 1) + backoffMs * (j - i);
    }
  }
}
