/**
 * Clients of the controller that replay usage scenarios of the hook on a
 * fresh hook and a fresh store, with the clock and the transport's answers
 * chosen by the caller. Each states what the UI and the callbacks observe.
 */
module Scenarios {
  import opened Wrappers
  import opened Backoff
  import opened ResultStore
  import opened Attempt
  import opened SmartFetch

  /** `retry: 2`, built-in transport: a 503, a network error, then `200` with `p`. */
  method RetriedThenSucceeds(url: Url, p: Payload, t: int)
    returns (loadingTrace: seq<bool>, delays: seq<int>, data: Option<Payload>, error: Option<Error>,
             successes: seq<Payload>, calls: nat)
    ensures loadingTrace == [true, false, true, false, true, false]
    ensures delays == [1000, 2000]
    ensures data == Some(p) && error == None && successes == [p] && calls == 3
  {
    var store := new Store();
    var c := new Controller(store);
    var cfg := Config(url, 2, DefaultDelay, None, false, 60000, true, true, false);

    var b := c.Start(cfg, t);
    loadingTrace := [c.loading];
    var next := c.Resolve(b.token, Responded(503, None), t);
    loadingTrace := loadingTrace + [c.loading];
    delays := [next.value.request.delayMs];

    b := c.StartAttempt(next.value.cfg, next.value.request.attempt, t + 1000);
    loadingTrace := loadingTrace + [c.loading];
    next := c.Resolve(b.token, Rejected(Thrown("TypeError")), t + 1000);
    loadingTrace := loadingTrace + [c.loading];
    delays := delays + [next.value.request.delayMs];

    b := c.StartAttempt(next.value.cfg, next.value.request.attempt, t + 3000);
    loadingTrace := loadingTrace + [c.loading];
    next := c.Resolve(b.token, Responded(200, Some(p)), t + 3000);
    loadingTrace := loadingTrace + [c.loading];
    data, error, successes, calls := c.data, c.error, c.successCalls, c.transportCalls;
  }

  /** `cache: true, cacheTime: 1000`: fetched at 0, served from the store at 500, fetched again at 1500. */
  method CacheServesWithinCacheTime(url: Url, p: Payload)
    returns (first: Begin, second: Begin, third: Begin, servedData: Option<Payload>, calls: nat)
    ensures first.Issued? && second == CacheHit(p) && third.Issued?
    ensures servedData == Some(p) && calls == 2
  {
    var store := new Store();
    var c := new Controller(store);
    var cfg := Config(url, 0, DefaultDelay, None, true, 1000, false, false, false);

    first := c.Start(cfg, 0);
    var _ := c.Resolve(first.token, Responded(200, Some(p)), 0);
    second := c.StartAttempt(cfg, 0, 500);
    servedData := c.data;
    third := c.StartAttempt(cfg, 0, 1500);
    calls := c.transportCalls;
  }

  /**
   * A second start before the first built-in fetch settles: whatever the first
   * call's transport answers, nothing is published and no callback runs, but its
   * `finally` still turns `loading` off while the second call is in flight.
   */
  method SupersededFetchIsSilent(url: Url, retryLimit: int, s: Settlement)
    returns (data: Option<Payload>, error: Option<Error>, successes: seq<Payload>, errors: seq<Error>,
             retry: Option<Scheduled>, loading: bool, secondInFlight: bool)
    requires !s.Returned?
    ensures data == None && error == None && successes == [] && errors == [] && retry == None
    ensures !loading && secondInFlight
  {
    var store := new Store();
    var c := new Controller(store);
    var cfg := Config(url, retryLimit, DefaultDelay, None, false, 60000, true, true, false);

    var first := c.Start(cfg, 0);
    var second := c.StartAttempt(cfg, 0, 10);
    retry := c.Resolve(first.token, s, 20);
    data, error, successes, errors, loading := c.data, c.error, c.successCalls, c.errorCalls, c.loading;
    secondInFlight := second.Issued? && second.token in c.inFlight;
  }

  /** The same race with a `customFetcher`: it never sees the signal, so the stale result is published. */
  method SupersededCustomFetcherPublishes(url: Url, p: Payload)
    returns (data: Option<Payload>, successes: seq<Payload>)
    ensures data == Some(p) && successes == [p]
  {
    var store := new Store();
    var c := new Controller(store);
    var cfg := Config(url, 0, DefaultDelay, None, false, 60000, true, true, true);

    var first := c.Start(cfg, 0);
    var _ := c.StartAttempt(cfg, 0, 10);
    var _ := c.Resolve(first.token, Returned(p), 20);
    data, successes := c.data, c.successCalls;
  }

  /** Unmount while a built-in fetch is in flight: its settlement publishes nothing, and the interval is cleared. */
  method StopSilencesFetch(url: Url, every: int, s: Settlement)
    returns (data: Option<Payload>, error: Option<Error>, successes: seq<Payload>, errors: seq<Error>,
             liveIntervals: set<nat>)
    requires !s.Returned? && every != 0
    ensures data == None && error == None && successes == [] && errors == [] && liveIntervals == {}
  {
    var store := new Store();
    var c := new Controller(store);
    var cfg := Config(url, 3, DefaultDelay, Some(every), false, 60000, true, true, false);

    var first := c.Start(cfg, 0);
    c.Stop();
    var _ := c.Resolve(first.token, s, 5);
    data, error, successes, errors, liveIntervals := c.data, c.error, c.successCalls, c.errorCalls, c.intervals;
  }

  /**
   * Unmount while a retry is waiting on its timer: the cleanup does not cancel
   * it, so the retry still fires, turns `loading` on and calls the transport.
   */
  method StopKeepsScheduledRetry(url: Url)
    returns (calls: nat, loading: bool, retried: Begin)
    ensures retried.Issued? && calls == 2 && loading
  {
    var store := new Store();
    var c := new Controller(store);
    var cfg := Config(url, 1, DefaultDelay, None, false, 60000, false, false, false);

    var first := c.Start(cfg, 0);
    var next := c.Resolve(first.token, Rejected(Thrown("TypeError")), 0);
    c.Stop();
    retried := c.StartAttempt(next.value.cfg, next.value.request.attempt, next.value.request.delayMs);
    calls, loading := c.transportCalls, c.loading;
  }

  /**
   * The leftover retry after unmount settles: nothing aborts its fresh controller,
   * so with `cache` on it still writes the shared store and `onSuccess` still runs.
   */
  method RetryAfterStopStillWrites(url: Url, p: Payload)
    returns (entries: map<Url, Entry>, successes: seq<Payload>)
    ensures url in entries && entries[url] == Entry(p, 1100) && successes == [p]
  {
    var store := new Store();
    var c := new Controller(store);
    var cfg := Config(url, 1, DefaultDelay, None, true, 60000, true, true, false);

    var first := c.Start(cfg, 0);
    var next := c.Resolve(first.token, Rejected(Thrown("TypeError")), 0);
    c.Stop();
    var retried := c.StartAttempt(next.value.cfg, next.value.request.attempt, next.value.request.delayMs);
    var _ := c.Resolve(retried.token, Responded(200, Some(p)), 1100);
    entries, successes := store.entries, c.successCalls;
  }

  /**
   * A retry left over from the previous URL after the URL changed (cleanup, then
   * the effect re-runs): `controllerRef` is shared, so the old URL's retry aborts
   * the new URL's request, and the old URL's payload is what gets published.
   */
  method UrlChangeLeftoverRetryWins(urlA: Url, urlB: Url, pa: Payload, pb: Payload)
    returns (data: Option<Payload>, loading: bool, newRequestDiscarded: bool)
    ensures data == Some(pa) && !loading && newRequestDiscarded
  {
    var store := new Store();
    var c := new Controller(store);
    var cfgA := Config(urlA, 1, DefaultDelay, None, false, 60000, false, false, false);
    var cfgB := Config(urlB, 1, DefaultDelay, None, false, 60000, false, false, false);

    var first := c.Start(cfgA, 0);
    var next := c.Resolve(first.token, Rejected(Thrown("TypeError")), 0);
    c.Stop();
    var forB := c.Start(cfgB, 10);
    var retried := c.StartAttempt(next.value.cfg, next.value.request.attempt, next.value.request.delayMs);
    var _ := c.Resolve(forB.token, Responded(200, Some(pb)), 1100);
    newRequestDiscarded := c.data == None;
    var _ := c.Resolve(retried.token, Responded(200, Some(pa)), 1200);
    data, loading := c.data, c.loading;
  }

  /**
   * A transport that always fails with `e`: the attempts chain through their retry
   * requests until one reports. The transport is called `retry + 1` times (once
   * when `retry` is not positive), `e` is published, `onError` runs once.
   */
  method AlwaysFailing(cfg: Config, e: Error, now: int)
    returns (calls: nat, error: Option<Error>, errors: seq<Error>, successes: seq<Payload>)
    requires e.Name() != AbortErrorName
    ensures calls == (if cfg.retry > 0 then cfg.retry else 0) + 1
    ensures error == Some(e) && successes == []
    ensures errors == (if cfg.hasOnError then [e] else [])
  {
    var store := new Store();
    var c := new Controller(store);

    var b := c.Start(cfg, now);
    var next := c.Resolve(b.token, Rejected(e), now);
    while next.Some?
      invariant c.Valid() && c.store == store && fresh(c) && fresh(store)
      invariant store.entries == map[] && c.inFlight == map[]
      invariant next.Some? ==> next.value.cfg == cfg && next.value.request.attempt <= cfg.retry && c.transportCalls == next.value.request.attempt
      invariant next.None? ==> c.transportCalls == (if cfg.retry > 0 then cfg.retry else 0) + 1
      invariant next.None? ==> c.error == Some(e) && c.errorCalls == (if cfg.hasOnError then [e] else [])
      invariant next.Some? ==> c.error == None && c.errorCalls == []
      invariant c.successCalls == []
      decreases if next.Some? then cfg.retry - next.value.request.attempt + 1 else 0
    {
      b := c.StartAttempt(next.value.cfg, next.value.request.attempt, now);
      next := c.Resolve(b.token, Rejected(e), now);
    }
    calls, error, errors, successes := c.transportCalls, c.error, c.errorCalls, c.successCalls;
  }
}
