# useSmartFetch, modelled in Dafny

This project models the decision procedure inside the React hook `useSmartFetch` (`app.js`).
The hook fetches a URL and publishes `{ data, error, loading }` to the UI. It serves fresh
results from a process-wide `cacheStore`, retries failures with exponential back-off, aborts a
superseded attempt's `AbortController`, and can re-poll on an interval.

The React, `fetch` and timer plumbing is replaced by explicit inputs and outputs:

- the clock (`Date.now()`) is a parameter `now`;
- the transport's answer is a `Settlement` passed to `Resolve`:
  `Responded(status, json)` for the built-in `fetch`, where `json` is absent when
  `response.json()` fails; `Returned(payload)` for a `customFetcher`; `Rejected(error)` for either;
- each in-flight call remembers the options of the `fetchData` closure that issued it, and
  `Resolve` uses those options; a scheduled retry is the `Scheduled(RetryRequest(attempt + 1, delay), options)`
  that `Resolve` returns, and the environment fires it by calling `StartAttempt` with those options; an interval tick is `StartAttempt(cfg, 0, now)`;
- the `onSuccess` and `onError` callbacks and the transport are counted, not run:
  `successCalls`, `errorCalls` and `transportCalls`.

Modules:

- `Backoff`: the default `retryDelay`, which is `min(1000·2^attempt, 10000)`, and its properties.
- `ResultStore`: the shared `cacheStore` class and the strict freshness test `now - timestamp < cacheTime`.
- `Attempt`: the pure decisions of one `fetchData` call, which are the options in force
  (`Config`), how a settlement becomes a payload or a thrown error (`Classify`), and what
  `try`/`catch` does with it (`FateOf`).
- `RetryChain`: the chain of attempts that one start produces through `fetchData(attempt + 1)`.
- `SmartFetch`: the hook instance as a class, with `fetchData` split at its `await` into
  `StartAttempt` and `Resolve`, plus the effect body `Start` and its cleanup `Stop`.
- `Scenarios`: clients that replay usage scenarios on a fresh hook and store.

Where the code differs from what a reader of the hook's options might expect, the model follows the code:

- The `finally` block runs on every path. So `loading` turns false while a retry waits on its
  timer, and also when a superseded attempt's `fetch` rejects with `AbortError`, even though a
  newer attempt is still in flight. A retried success therefore shows `loading` as
  true, false, true, false, true, false, not true, true, true, false.
- The cleanup aborts the controller and clears the interval but not a retry timer, because
  the `setTimeout` id is never kept. A retry scheduled before unmount still fires and calls the
  transport (`StopKeepsScheduledRetry`). After a real unmount React ignores the state updates.
  The transport call stays observable. So do, once the retry settles, the cache write (with
  `cache` on), the `onSuccess` or `onError` call and any further retry, because nothing aborts
  the retry's fresh controller (`RetryAfterStopStillWrites`). On a URL
  change (cleanup, then the effect re-runs) it is worse: `controllerRef` is shared, so the old
  URL's retry aborts the new URL's request and the old URL's payload is published
  (`UrlChangeLeftoverRetryWins`).
- Only the built-in `fetch` receives the abort signal. A `customFetcher`'s stale result is
  published even after a newer attempt has started (`SupersededCustomFetcherPublishes`).
- `timeout` is destructured but never used, so no deadline exists.
- `setInterval(fetchData, …)` calls `fetchData` with no argument, so every tick starts again at attempt 0.

## Model

| member | source | states |
|---|---|---|
| `Backoff.Pow2` | app.js:12 | `2 ** attempt` is at least 1 for every retry counter |
| `Backoff.DefaultRetryDelay` | app.js:12 | the default delay always lies between 1000 and 10000 ms |
| `Backoff.DelayFor` | app.js:12 | the delay used for a retry; under the default option it lies between 1000 and 10000 ms |
| `Backoff.Pow2Monotone` | app.js:12 | `2 ** m <= 2 ** n` whenever `m <= n` |
| `Backoff.DefaultRetryDelayMonotone` | app.js:12 | the default schedule is non-decreasing in `attempt` |
| `Backoff.DefaultRetryDelaySaturates` | app.js:12 | from attempt 4 on the default delay is exactly 10000 ms |
| `Backoff.DefaultRetryDelayDoubles` | app.js:12 | below the cap each default delay is twice the previous one |
| `Backoff.DefaultRetryDelaySchedule` | app.js:12 | the first five default delays are 1000, 2000, 4000, 8000, 10000 ms |
| `ResultStore.CachedPayload` | app.js:38-39 | the cache check hits if and only if caching is on, an entry exists for the URL and `now - timestamp < cacheTime` (strict); a hit yields the stored data |
| `ResultStore.FreshUntilCacheTime` | app.js:38-70 | a payload written at time `t` is served back exactly while `now - t < cacheTime` |
| `ResultStore.DisabledNeverHits` | app.js:39 | with `cache` off the store never serves an attempt |
| `ResultStore.WriteIsolatesUrls` | app.js:65-70 | writing one URL leaves what every other URL serves unchanged |
| `ResultStore.Store.constructor` | app.js:3 | the shared store starts empty |
| `ResultStore.Store.Get` | app.js:38 | `get` returns the entry for the URL if and only if one is stored |
| `ResultStore.Store.Set` | app.js:66-69 | `set` overwrites exactly the entry for the URL; every other key keeps its entry |
| `Attempt.Defaults` | app.js:6-19 | a bare call runs with `retry` 0, the default back-off, no interval, caching off, `cacheTime` 60000 and no callbacks or custom fetcher |
| `Attempt.ArmsInterval` | app.js:92 | `if (refreshInterval)`: no interval for `null` or `0`, one for any other number |
| `Attempt.Classify` | app.js:45-74 | an aborted built-in fetch yields `AbortError`; otherwise a non-ok status throws an HTTP error, an undecodable body throws `SyntaxError`, a decoded body or a `customFetcher`'s value succeeds as itself, and a rejection reaches `catch` with its own error |
| `Attempt.FateOf` | app.js:72-83 | success publishes its payload; an `AbortError` is discarded; any other error is retried with `attempt + 1` after `retryDelay(attempt)` if and only if `attempt < retry`, and is reported as itself otherwise |
| `Attempt.Resolution` | app.js:45-83 | the fate of the whole `try`/`catch`: an aborted built-in fetch is discarded, a `customFetcher`'s value is published, a retry happens only while `attempt < retry` and asks for `attempt + 1` after `retryDelay(attempt)`, and only a non-abort error with `attempt >= retry` is reported; `NonOkStatusIsAFailure`, `SupersededFetchIsDiscarded`, `CustomFetcherIgnoresAbort` and `NoRetryByDefault` relate it to the transport's answers |
| `Attempt.NonOkStatusIsAFailure` | app.js:58-60 | a non-ok status becomes an HTTP error with the same fate as any other non-abort thrown error: the same retry request, or a report |
| `Attempt.SupersededFetchIsDiscarded` | app.js:51-56 | once its signal is aborted, a built-in fetch attempt is discarded whatever the server answered |
| `Attempt.CustomFetcherIgnoresAbort` | app.js:48-49 | a `customFetcher` attempt meets the same fate whether or not its controller was aborted |
| `Attempt.NoRetryByDefault` | app.js:77-83 | with default options the first non-abort failure is reported at once |
| `RetryChain.RunFrom` | app.js:77-79 | a chain makes at most one transport call per outcome, schedules one delay per retry, and never ends on a retry |
| `RetryChain.AlwaysFailingChain` | app.js:77-83 | a transport that always fails is called exactly `retry - attempt + 1` times (once when no retries are left), the last error is the one reported, and the k-th retry waits `retryDelay(attempt + k)` |
| `RetryChain.AlwaysFailingStart` | app.js:77-83 | from a start, an always-failing transport is called `retry + 1` times (once when `retry` is not positive) |
| `RetryChain.RecoversAfterFailures` | app.js:72-80 | failures within the retry budget followed by a success end in exactly one publication of that payload and no report |
| `RetryChain.DefaultChainDelaysNonDecreasing` | app.js:78 | under the default schedule a chain's retry delays never decrease and never exceed 10000 ms |
| `SmartFetch.Controller.LiveTokens` | app.js:31-35 | at most one controller is live: only the current one can be un-aborted |
| `SmartFetch.Controller.constructor` | app.js:21-25 | a mounted hook starts with `data` and `error` null, `loading` false, and no controller or interval |
| `SmartFetch.Controller.RenewController` | app.js:31-36 | the previous controller, if any, is aborted and a fresh one becomes the only live one |
| `SmartFetch.Controller.StartAttempt` | app.js:27-56 | `loading` on and `error` cleared; the previous controller aborted and a fresh one the only live one; on a cache hit the data is published with `loading` off, no transport call and the store untouched; otherwise exactly one transport call is issued and recorded with its attempt and options |
| `SmartFetch.Controller.Resolve` | app.js:45-86 | under the options of the closure that issued the call, carries out the attempt's fate: on success, cache write (only with `cache` on, only this URL, stamped `now`), data and one `onSuccess`; on a retry, the request is handed back with those same options and the error still unset; on a report, the error and one `onError`; on abort, nothing; `loading` is false on every path |
| `SmartFetch.Controller.Start` | app.js:89-95 | runs attempt 0 and arms exactly one new interval if and only if `refreshInterval` is truthy |
| `SmartFetch.Controller.Stop` | app.js:96-99 | aborts the current controller so none is live, clears the interval in `intervalRef`, and changes nothing else |
| `Scenarios.RetriedThenSucceeds` | app.js:27-87 | with `retry` 2, two failures then a success: delays 1000 and 2000 ms, three transport calls, data published with no error, `onSuccess` once, and `loading` going true, false, true, false, true, false |
| `Scenarios.CacheServesWithinCacheTime` | app.js:38-70 | with `cacheTime` 1000, a fetch at 0 is served from the store at 500 without a transport call and fetched again at 1500 |
| `Scenarios.SupersededFetchIsSilent` | app.js:31-36 | a second start before the first built-in fetch settles leaves no data, no error, no callback and no retry from the first; its `finally` still turns `loading` off while the second is in flight |
| `Scenarios.SupersededCustomFetcherPublishes` | app.js:48-49 | a superseded `customFetcher` result is still published and passed to `onSuccess` |
| `Scenarios.StopSilencesFetch` | app.js:96-99 | after cleanup a built-in fetch's settlement publishes nothing and calls no callback, and no interval stays armed |
| `Scenarios.StopKeepsScheduledRetry` | app.js:77-79 | a retry scheduled before cleanup still fires after it, turns `loading` on and calls the transport |
| `Scenarios.RetryAfterStopStillWrites` | app.js:65-73 | a retry that fires after cleanup and then succeeds still writes the shared store (with `cache` on) and still calls `onSuccess` |
| `Scenarios.UrlChangeLeftoverRetryWins` | app.js:31-36 | after a URL change a leftover retry of the old URL aborts the new URL's request, whose success is discarded, and the old URL's payload is published |
| `Scenarios.AlwaysFailing` | app.js:77-83 | an always-failing transport is called `retry + 1` times, then its error is published and `onError` runs once |

## Left out

- React's `useState`, `useRef` and `useEffect` machinery: state updates are plain field assignments, applied in program order; re-render batching is not modelled.
- The effect's re-run on a URL change is `Stop` followed by `Start` with the new options; the dependency tracking itself is not modelled.
- The `fetch` call, `response.json()` and the `customFetcher` body are foreign I/O. Their result is the `Settlement` parameter. The built-in transport's one modelled behaviour is that it rejects with `AbortError` once its signal is aborted.
- `setTimeout` and `setInterval` timing and event-loop interleaving are left to the caller, which fires retries and ticks by calling `StartAttempt`.
- `Date.now()` is the `now` parameter.
- `method`, `headers` and `body` are passed straight to the transport and decide nothing.
- `timeout` is never used by the hook.
- The contents of `onSuccess` and `onError` are not modelled; only their invocations and arguments are recorded.
- Payloads are opaque strings. In the hook a payload that decodes to JSON `null` (or a `customFetcher` returning `undefined`) sets `data` back to null; the model publishes `Some(p)`.
- An interval tick runs under the options of the effect that armed it; the model's caller passes those options to `StartAttempt`, which does not check them against the armed interval.
- The text of the HTTP error message is not modelled; only its status and its name `Error` are.
- `2 ** attempt` is a floating-point power in JavaScript. It is exact for every retry counter below 1024, and the result is capped at 10000 long before that, so the model uses integers.
- `RunFrom`, `AlwaysFailingChain`, `AlwaysFailingStart` and `RecoversAfterFailures` assume every attempt in a chain reaches the transport. With `cache` on, a retry is served from the store when a fresh entry for the URL was written while it waited, by an interval tick or another hook instance; the chain then ends with the data published, no `onSuccess` call and one transport call fewer. The controller's `StartAttempt` models that case; the chain functions do not.
- Two error paths inside `catch` are not modelled: a `customFetcher` that throws `null` or `undefined` makes `err.name` itself throw, which leaves no error, no retry and `loading` false; a custom `retryDelay` that throws does the same.
- An `onSuccess` callback that throws is caught by the same `catch` block and treated as a failed attempt. Callbacks are assumed not to throw, since their contents are not modelled.
