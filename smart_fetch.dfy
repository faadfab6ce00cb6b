/**
 * One `useSmartFetch` hook instance: its published `{ data, error, loading }`,
 * its `controllerRef` (one `AbortController` per attempt, numbered here by an
 * epoch, with the set of epochs already aborted), its `intervalRef`, and the
 * shared store. `fetchData` is split at its `await`: `StartAttempt` runs up to
 * the transport call, `Resolve` runs the rest once the transport has settled.
 * The clock and the transport's settlement are parameters.
 */
module SmartFetch {
  import opened Wrappers
  import opened Backoff
  import opened ResultStore
  import opened Attempt

  /** How an attempt's synchronous part ended: served from the store, or waiting on the transport. */
  datatype Begin = CacheHit(payload: Payload) | Issued(token: nat)

  /** A `fetchData` call waiting on its transport: its `attempt` and the options of the closure that made it. */
  datatype Call = Call(attempt: nat, cfg: Config)

  /** A `setTimeout(() => fetchData(attempt + 1), delay)` armed by the closure whose options are `cfg`. */
  datatype Scheduled = Scheduled(request: RetryRequest, cfg: Config)

  class Controller {
    /** `cacheStore`, shared with every other instance. */
    const store: Store

    // the published state
    var data: Option<Payload>
    var error: Option<Error>
    var loading: bool

    /** `controllerRef.current`: the epoch of the most recent `AbortController`, if any. */
    var current: Option<nat>
    /** Epochs whose `AbortController` has been aborted. */
    var aborted: set<nat>
    /** The epoch the next `new AbortController()` receives. */
    var nextEpoch: nat
    /** Transport calls not yet settled, with the `attempt` and options of the `fetchData` call that made them. */
    var inFlight: map<nat, Call>

    // observable effects on collaborators, counted
    var transportCalls: nat
    var successCalls: seq<Payload>
    var errorCalls: seq<Error>

    /** `intervalRef.current`: the id of the last interval armed (never reset). */
    var intervalRef: Option<nat>
    /** Intervals armed and not cleared. */
    var intervals: set<nat>
    var nextInterval: nat

    /** Every epoch but the current one has been aborted; aborted and in-flight epochs were all issued. */
    ghost predicate Valid()
      reads this
    {
      && (current.Some? ==> current.value < nextEpoch)
      && (forall e: nat :: e < nextEpoch && e !in aborted ==> current == Some(e))
      && (forall e :: e in aborted ==> e < nextEpoch)
      && (forall e :: e in inFlight ==> e < nextEpoch)
    }

    /** The epochs whose signal has not been aborted: at most the current one. */
    ghost function LiveTokens(): (live: set<nat>)
      reads this
      requires Valid()
      ensures live <= (if current.Some? then {current.value} else {})
      ensures forall e: nat :: e in live <==> e < nextEpoch && e !in aborted
    {
      set e: nat | e < nextEpoch && e !in aborted
    }

    /** A freshly mounted hook: `data = null`, `error = null`, `loading = false`, no controller, no interval. */
    constructor (store: Store)
      ensures Valid() && this.store == store
      ensures data == None && error == None && !loading
      ensures current == None && aborted == {} && nextEpoch == 0 && inFlight == map[]
      ensures transportCalls == 0 && successCalls == [] && errorCalls == []
      ensures intervalRef == None && intervals == {} && nextInterval == 0
    {
      this.store := store;
      data, error, loading := None, None, false;
      current, aborted, nextEpoch, inFlight := None, {}, 0, map[];
      transportCalls, successCalls, errorCalls := 0, [], [];
      intervalRef, intervals, nextInterval := None, {}, 0;
    }

    /**
     * The state change of the synchronous part of `fetchData(attempt)` at time `now`:
     * `loading` on and `error` cleared, the previous controller aborted and a fresh
     * one current, then either the cached payload published with `loading` off
     * (store untouched, no transport call) or one transport call issued.
     */
    twostate predicate Began(cfg: Config, attempt: nat, now: int, r: Begin)
      reads this, store
    {
      var token := old(nextEpoch);
      var hit := CachedPayload(store.entries, cfg.url, cfg.cache, now, cfg.cacheTime);
      && Valid()
      && error == None
      && aborted == old(aborted) + (if old(current).Some? then {old(current).value} else {})
      && current == Some(token) && nextEpoch == token + 1
      && LiveTokens() == {token}
      && r == (if hit.Some? then CacheHit(hit.value) else Issued(token))
      && loading == hit.None?
      && data == (if hit.Some? then hit else old(data))
      && inFlight == (if hit.Some? then old(inFlight) else old(inFlight)[token := Call(attempt, cfg)])
      && transportCalls == old(transportCalls) + (if hit.Some? then 0 else 1)
      && successCalls == old(successCalls) && errorCalls == old(errorCalls)
      && store.entries == old(store.entries)
    }

    /** Abort `controllerRef.current`, if any, and make a fresh controller current. */
    method RenewController() returns (token: nat)
      requires Valid()
      modifies this`current, this`aborted, this`nextEpoch
      ensures Valid()
      ensures token == old(nextEpoch) && current == Some(token) && nextEpoch == token + 1
      ensures aborted == old(aborted) + (if old(current).Some? then {old(current).value} else {})
      ensures LiveTokens() == {token}
    {
      if current.Some? {
        aborted := aborted + {current.value};
      }
      token := nextEpoch;
      current := Some(token);
      nextEpoch := nextEpoch + 1;
      assert LiveTokens() == {token} by {
        assert token in LiveTokens();
        assert forall e: nat :: e in LiveTokens() ==> e == token;
      }
    }

    /** `fetchData(attempt)` up to its `await`; a retry and an interval tick also start here. */
    method StartAttempt(cfg: Config, attempt: nat, now: int) returns (r: Begin)
      requires Valid()
      modifies this
      ensures Began(cfg, attempt, now, r)
      ensures intervalRef == old(intervalRef) && intervals == old(intervals) && nextInterval == old(nextInterval)
    {
      loading := true;
      error := None;
      var token := RenewController();
      var cached := store.Get(cfg.url);
      if cfg.cache && cached.Some? && IsFresh(cached.value, now, cfg.cacheTime) {
        data := Some(cached.value.data);
        loading := false;
        r := CacheHit(cached.value.data);
        return;
      }
      transportCalls := transportCalls + 1;
      inFlight := inFlight[token := Call(attempt, cfg)];
      r := Issued(token);
    }

    /**
     * The rest of `fetchData` once the transport call of `token` settled as `s` at
     * time `now`, under the options of the closure that issued the call: the fate
     * `Resolution` assigns is carried out (cache write, data and `onSuccess`; a retry
     * handed back with that closure's options; error and `onError`; or nothing) and
     * the `finally` block turns `loading` off on every path.
     */
    method Resolve(token: nat, s: Settlement, now: int) returns (retry: Option<Scheduled>)
      requires Valid() && token in inFlight && Produces(inFlight[token].cfg, s)
      modifies this, store
      ensures Valid()
      ensures var call := old(inFlight)[token];
              var cfg := call.cfg;
              var f := Resolution(cfg, call.attempt, s, token in old(aborted));
              && retry == (if f.Retry? then Some(Scheduled(f.request, cfg)) else None)
              && !loading
              && data == (if f.Publish? then Some(f.payload) else old(data))
              && error == (if f.Report? then Some(f.err) else old(error))
              && successCalls == old(successCalls) + (if f.Publish? && cfg.hasOnSuccess then [f.payload] else [])
              && errorCalls == old(errorCalls) + (if f.Report? && cfg.hasOnError then [f.err] else [])
              && store.entries == (if f.Publish? && cfg.cache
                                   then old(store.entries)[cfg.url := Entry(f.payload, now)]
                                   else old(store.entries))
      ensures inFlight == old(inFlight) - {token}
      ensures current == old(current) && aborted == old(aborted) && nextEpoch == old(nextEpoch)
      ensures transportCalls == old(transportCalls)
      ensures intervalRef == old(intervalRef) && intervals == old(intervals) && nextInterval == old(nextInterval)
    {
      var attempt, cfg := inFlight[token].attempt, inFlight[token].cfg;
      inFlight := inFlight - {token};
      retry := None;
      match Classify(s, !cfg.hasCustomFetcher, token in aborted) {
      case Succeeded(p) =>
        if cfg.cache {
          store.Set(cfg.url, Entry(p, now));
        }
        data := Some(p);
        if cfg.hasOnSuccess {
          successCalls := successCalls + [p];
        }
      case Failed(e) =>
        if e.Name() == AbortErrorName {
          // superseded or unmounted: nothing is published
        } else if attempt < cfg.retry {
          retry := Some(Scheduled(RetryRequest(attempt + 1, DelayFor(cfg.retryDelay, attempt)), cfg));
        } else {
          error := Some(e);
          if cfg.hasOnError {
            errorCalls := errorCalls + [e];
          }
        }
      }
      loading := false;
    }

    /** The effect body: run attempt 0, then arm the refresh interval when one is configured. */
    method Start(cfg: Config, now: int) returns (r: Begin)
      requires Valid()
      modifies this
      ensures Began(cfg, 0, now, r)
      ensures ArmsInterval(cfg) ==> && intervalRef == Some(old(nextInterval))
                                    && intervals == old(intervals) + {old(nextInterval)}
                                    && nextInterval == old(nextInterval) + 1
      ensures !ArmsInterval(cfg) ==> && intervalRef == old(intervalRef) && intervals == old(intervals)
                                     && nextInterval == old(nextInterval)
    {
      r := StartAttempt(cfg, 0, now);
      if ArmsInterval(cfg) {
        intervalRef := Some(nextInterval);
        intervals := intervals + {nextInterval};
        nextInterval := nextInterval + 1;
      }
    }

    /**
     * The effect's cleanup: abort the current controller and clear the interval in
     * `intervalRef`. Nothing else changes; in particular a retry already scheduled
     * with `setTimeout` is not cancelled and in-flight calls stay in flight.
     */
    method Stop()
      requires Valid()
      modifies this
      ensures Valid() && LiveTokens() == {}
      ensures aborted == old(aborted) + (if old(current).Some? then {old(current).value} else {})
      ensures intervals == (if old(intervalRef).Some? then old(intervals) - {old(intervalRef).value} else old(intervals))
      ensures data == old(data) && error == old(error) && loading == old(loading)
      ensures current == old(current) && nextEpoch == old(nextEpoch) && inFlight == old(inFlight)
      ensures transportCalls == old(transportCalls) && successCalls == old(successCalls) && errorCalls == old(errorCalls)
      ensures intervalRef == old(intervalRef) && nextInterval == old(nextInterval)
    {
      if current.Some? {
        aborted := aborted + {current.value};
      }
      if intervalRef.Some? {
        intervals := intervals - {intervalRef.value};
      }
    }
  }
}
