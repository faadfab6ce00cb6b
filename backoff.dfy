/**
 * The retry back-off schedule of `useSmartFetch`: the `retryDelay` option and
 * its default `attempt => Math.min(1000 * 2 ** attempt, 10000)`.
 */
module Backoff {

  /** Delay of the first retry under the default schedule, in milliseconds. */
  const BaseDelayMs: nat := 1000
  /** Ceiling of the default schedule, in milliseconds. */
  const MaxDelayMs: nat := 10000

  /** `2 ** n` for a retry counter, which is always a whole number >= 0. */
  function Pow2(n: nat): (r: nat)
    ensures r >= 1
  {
    if n == 0 then 1 else 2 * Pow2(n - 1)
  }

  /** The default back-off: the doubling delay, capped at `MaxDelayMs` (`Math.min`). */
  function DefaultRetryDelay(attempt: nat): (ms: nat)
    ensures BaseDelayMs <= ms <= MaxDelayMs
  {
    var doubled := BaseDelayMs * Pow2(attempt);
    if doubled <= MaxDelayMs then doubled else MaxDelayMs
  }

  /** The `retryDelay` option: absent (the default above) or a caller-supplied function. */
  datatype RetryDelay = DefaultDelay | CustomDelay(delayFor: nat -> int)

  /** The delay the hook waits before re-invoking itself after failed attempt `attempt`. */
  function DelayFor(policy: RetryDelay, attempt: nat): (ms: int)
    ensures policy.DefaultDelay? ==> BaseDelayMs <= ms <= MaxDelayMs
  {
    match policy
    case DefaultDelay => DefaultRetryDelay(attempt)
    case CustomDelay(f) => f(attempt)
  }

  lemma {:induction false} Pow2Monotone(m: nat, n: nat)
    requires m <= n
    ensures Pow2(m) <= Pow2(n)
  {
    if m < n {
      Pow2Monotone(m, n - 1);
    }
  }

  /** Waiting longer never comes before waiting shorter: the schedule is non-decreasing. */
  lemma DefaultRetryDelayMonotone(m: nat, n: nat)
    requires m <= n
    ensures DefaultRetryDelay(m) <= DefaultRetryDelay(n)
  {
    Pow2Monotone(m, n);
  }

  /** From the fifth failed attempt on (attempt 4), the delay stays at the ceiling. */
  lemma DefaultRetryDelaySaturates(attempt: nat)
    requires attempt >= 4
    ensures DefaultRetryDelay(attempt) == MaxDelayMs
  {
    Pow2Monotone(4, attempt);
  }

  /** Below the ceiling each retry waits twice as long as the one before. */
  lemma DefaultRetryDelayDoubles(attempt: nat)
    requires attempt < 3
    ensures DefaultRetryDelay(attempt + 1) == 2 * DefaultRetryDelay(attempt)
  {
  }

  /** The first five delays of the default schedule: 1000, 2000, 4000, 8000, 10000 ms. */
  lemma DefaultRetryDelaySchedule()
    ensures [DefaultRetryDelay(0), DefaultRetryDelay(1), DefaultRetryDelay(2),
             DefaultRetryDelay(3), DefaultRetryDelay(4)]
         == [1000, 2000, 4000, 8000, 10000]
  {
  }
}
