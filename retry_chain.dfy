/**
 * The chain of attempts one start produces: each failed attempt that may still
 * retry re-invokes `fetchData(attempt + 1)` after its delay, until an attempt
 * publishes, reports or is discarded. The chain is followed here on the
 * outcomes its attempts meet, one outcome per transport call.
 */
module RetryChain {
  import opened Wrappers
  import opened Backoff
  import opened ResultStore
  import opened Attempt

  /**
   * Where a chain ended: how many transport calls it made, the delays of the
   * retries it scheduled, and the fate that ended it (none while a retry is
   * still pending because the outcomes ran out).
   */
  datatype Run = Run(calls: nat, delays: seq<int>, last: Option<Fate>)

  function RunFrom(attempt: nat, retry: int, delay: RetryDelay, outcomes: seq<Outcome>): (r: Run)
    ensures r.calls <= |outcomes|
    ensures r.last.None? ==> r.calls == |outcomes| && |r.delays| == r.calls
    ensures r.last.Some? ==> 1 <= r.calls && |r.delays| == r.calls - 1 && !r.last.value.Retry?
    decreases |outcomes|
  {
    if outcomes == [] then Run(0, [], None)
    else
      var f := FateOf(attempt, retry, delay, outcomes[0]);
      if f.Retry? then
        var rest := RunFrom(attempt + 1, retry, delay, outcomes[1..]);
        Run(rest.calls + 1, [f.request.delayMs] + rest.delays, rest.last)
      else
        Run(1, [], Some(f))
  }

  /** Every outcome is a failure that is not an abort. */
  predicate AllFail(outcomes: seq<Outcome>)
  {
    forall k :: 0 <= k < |outcomes| ==> outcomes[k].Failed? && outcomes[k].err.Name() != AbortErrorName
  }

  /** Retries left to an attempt: `retry - attempt`, or none. */
  function RetriesLeft(attempt: nat, retry: int): nat
  {
    if attempt < retry then retry - attempt else 0
  }

  /**
   * A transport that always fails is called exactly once more than the retries
   * left, the last failure is reported (once), and the k-th retry waits
   * `retryDelay(attempt + k)`.
   */
  lemma {:induction false} AlwaysFailingChain(attempt: nat, retry: int, delay: RetryDelay, outcomes: seq<Outcome>)
    requires AllFail(outcomes) && |outcomes| > RetriesLeft(attempt, retry)
    ensures var r := RunFrom(attempt, retry, delay, outcomes);
            && r.calls == RetriesLeft(attempt, retry) + 1
            && r.last == Some(Report(outcomes[RetriesLeft(attempt, retry)].err))
            && |r.delays| == RetriesLeft(attempt, retry)
            && forall k :: 0 <= k < |r.delays| ==> r.delays[k] == DelayFor(delay, attempt + k)
    decreases |outcomes|
  {
    if attempt < retry {
      AlwaysFailingChain(attempt + 1, retry, delay, outcomes[1..]);
      var r := RunFrom(attempt, retry, delay, outcomes);
      var rest := RunFrom(attempt + 1, retry, delay, outcomes[1..]);
      assert r.delays == [DelayFor(delay, attempt)] + rest.delays;
      assert outcomes[1..][RetriesLeft(attempt + 1, retry)] == outcomes[RetriesLeft(attempt, retry)];
    }
  }

  /** From a first attempt: `retry + 1` calls for a non-negative `retry`, and one call otherwise. */
  lemma AlwaysFailingStart(retry: int, delay: RetryDelay, outcomes: seq<Outcome>)
    requires AllFail(outcomes) && |outcomes| > 0 && |outcomes| > retry
    ensures RunFrom(0, retry, delay, outcomes).calls == (if retry > 0 then retry else 0) + 1
  {
    AlwaysFailingChain(0, retry, delay, outcomes);
  }

  /**
   * Failures within the retry budget followed by a success end in exactly one
   * publication of that payload and no report.
   */
  lemma {:induction false} RecoversAfterFailures(attempt: nat, retry: int, delay: RetryDelay, failures: seq<Outcome>, p: Payload)
    requires AllFail(failures) && attempt + |failures| <= retry
    ensures var r := RunFrom(attempt, retry, delay, failures + [Succeeded(p)]);
            r.calls == |failures| + 1 && r.last == Some(Publish(p)) && |r.delays| == |failures|
    decreases |failures|
  {
    if failures != [] {
      assert (failures + [Succeeded(p)])[1..] == failures[1..] + [Succeeded(p)];
      RecoversAfterFailures(attempt + 1, retry, delay, failures[1..], p);
    }
  }

  /** Under the default schedule the retries of a chain never wait less than the one before. */
  lemma DefaultChainDelaysNonDecreasing(attempt: nat, retry: int, outcomes: seq<Outcome>, i: nat, j: nat)
    requires AllFail(outcomes) && |outcomes| > RetriesLeft(attempt, retry)
    requires i <= j < RetriesLeft(attempt, retry)
    ensures var d := RunFrom(attempt, retry, DefaultDelay, outcomes).delays;
            |d| == RetriesLeft(attempt, retry) && d[i] <= d[j] <= MaxDelayMs
  {
    AlwaysFailingChain(attempt, retry, DefaultDelay, outcomes);
    DefaultRetryDelayMonotone(attempt + i, attempt + j);
  }
}
