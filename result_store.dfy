/**
 * The module-level `cacheStore`: a map from URL to the last successful payload
 * and the time it was captured, shared by every hook instance in the process.
 * Freshness is decided by the reader with its own `cacheTime`.
 */
module ResultStore {
  import opened Wrappers

  /** The request URL, compared by exact equality. */
  type Url = string
  /** A decoded response body; the hook never looks inside it. */
  type Payload = string

  /** `{ data, timestamp }` as written on success. */
  datatype Entry = Entry(data: Payload, timestamp: int)

  /** The strict freshness test `now - timestamp < cacheTime`. */
  predicate IsFresh(e: Entry, now: int, cacheTime: int)
  {
    now - e.timestamp < cacheTime
  }

  /**
   * What the cache check of an attempt yields: the cached payload when caching is
   * on, an entry exists for `url` and it is fresh; nothing otherwise.
   */
  function CachedPayload(entries: map<Url, Entry>, url: Url, enabled: bool, now: int, cacheTime: int)
    : (r: Option<Payload>)
    ensures r.Some? <==> enabled && url in entries && now - entries[url].timestamp < cacheTime
    ensures r.Some? ==> r.value == entries[url].data
  {
    if enabled && url in entries && IsFresh(entries[url], now, cacheTime) then Some(entries[url].data) else None
  }

  /** A payload written at `written` is served back until `cacheTime` has elapsed, and not after. */
  lemma FreshUntilCacheTime(entries: map<Url, Entry>, url: Url, p: Payload, written: int, now: int, cacheTime: int)
    ensures CachedPayload(entries[url := Entry(p, written)], url, true, now, cacheTime)
         == if now - written < cacheTime then Some(p) else None
  {
  }

  /** With caching off no attempt is ever served from the store. */
  lemma DisabledNeverHits(entries: map<Url, Entry>, url: Url, now: int, cacheTime: int)
    ensures CachedPayload(entries, url, false, now, cacheTime) == None
  {
  }

  /** Writing one URL leaves what every other URL serves unchanged. */
  lemma WriteIsolatesUrls(entries: map<Url, Entry>, url: Url, e: Entry, other: Url,
                          enabled: bool, now: int, cacheTime: int)
    requires other != url
    ensures CachedPayload(entries[url := e], other, enabled, now, cacheTime)
         == CachedPayload(entries, other, enabled, now, cacheTime)
  {
  }

  /** The shared `Map`, updated in place by `set`. */
  class Store {
    var entries: map<Url, Entry>

    /** `new Map()`: the store starts empty. */
    constructor ()
      ensures entries == map[]
    {
      entries := map[];
    }

    /** `cacheStore.get(url)`: the entry for `url`, or nothing. */
    function Get(url: Url): (r: Option<Entry>)
      reads this
      ensures r.Some? <==> url in entries
      ensures r.Some? ==> r.value == entries[url]
    {
      if url in entries then Some(entries[url]) else None
    }

    /** `cacheStore.set(url, e)`: overwrite the entry for `url`; every other key is untouched. */
    method Set(url: Url, e: Entry)
      modifies this
      ensures entries == old(entries)[url := e]
      ensures forall u :: u != url ==> (u in entries <==> u in old(entries))
      ensures forall u :: u != url && u in entries ==> entries[u] == old(entries)[u]
    {
      entries := entries[url := e];
    }
  }
}
