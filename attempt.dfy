/**
 * The pure decisions inside `fetchData`: which options are in force, how the
 * transport's settlement becomes a success or a thrown error, and what the
 * `try`/`catch` does with it.
 */
module Attempt {
  import opened Wrappers
  import opened Backoff
  import opened ResultStore

  /**
   * The destructured options the effect's closure captured. Only whether
   * `onSuccess`, `onError` and `customFetcher` are present matters to the hook;
   * `method`, `headers`, `body` and `timeout` never influence a decision.
   */
  datatype Config = Config(
    url: Url,
    retry: int,
    retryDelay: RetryDelay,
    refreshInterval: Option<int>,
    cache: bool,
    cacheTime: int,
    hasOnSuccess: bool,
    hasOnError: bool,
    hasCustomFetcher: bool)

  /** The options a bare `useSmartFetch(url)` runs with. */
  function Defaults(url: Url): (cfg: Config)
    ensures cfg.url == url && cfg.retry == 0 && cfg.retryDelay.DefaultDelay?
    ensures cfg.refreshInterval.None? && !cfg.cache && cfg.cacheTime == 60000
    ensures !cfg.hasOnSuccess && !cfg.hasOnError && !cfg.hasCustomFetcher
  {
    Config(url, 0, DefaultDelay, None, false, 60000, false, false, false)
  }

  /** `if (refreshInterval)`: `null` and `0` are falsy, any other number arms the interval. */
  predicate ArmsInterval(cfg: Config): (arms: bool)
    ensures cfg.refreshInterval.None? ==> !arms
    ensures cfg.refreshInterval == Some(0) ==> !arms
    ensures forall ms :: cfg.refreshInterval == Some(ms) && ms != 0 ==> arms
  {
    cfg.refreshInterval.Some? && cfg.refreshInterval.value != 0
  }

  /** An error as the `catch` block sees it; only its `name` is inspected. */
  datatype Error =
    | HttpError(status: int)    // `new Error("HTTP error! status: ...")`
    | Thrown(errName: string)   // anything else: a network `TypeError`, a `SyntaxError`, an `AbortError`, ...
  {
    function Name(): string
    {
      match this
      case HttpError(_) => "Error"
      case Thrown(n) => n
    }
  }

  const AbortErrorName: string := "AbortError"

  /** What `fetch` rejects with once its signal is aborted (also `response.json()`). */
  const AbortError: Error := Thrown(AbortErrorName)
  /** What `response.json()` rejects with on a body that is not JSON. */
  const DecodeError: Error := Thrown("SyntaxError")

  /**
   * How the awaited transport settled, ignoring cancellation:
   * the built-in `fetch` answers with a status and a body that decodes or not,
   * a `customFetcher` returns a value, and either can reject.
   */
  datatype Settlement =
    | Responded(status: int, json: Option<Payload>)
    | Returned(value: Payload)
    | Rejected(err: Error)

  /** A settlement the configured transport can produce. */
  predicate Produces(cfg: Config, s: Settlement)
  {
    if cfg.hasCustomFetcher then !s.Responded? else !s.Returned?
  }

  /** `response.ok`: a status in 200-299. */
  predicate IsOk(status: int)
  {
    200 <= status <= 299
  }

  /** What reaches the end of the `try` block: a payload, or the error thrown to `catch`. */
  datatype Outcome = Succeeded(payload: Payload) | Failed(err: Error)

  /**
   * The outcome of the `try` block. The built-in `fetch` receives the attempt's
   * signal, so once that signal is aborted it rejects with `AbortError` whatever
   * the server does; a `customFetcher` is called without the signal and its
   * result stands. A non-ok status is thrown as an `HttpError`.
   */
  function Classify(s: Settlement, usesSignal: bool, signalAborted: bool): (o: Outcome)
    ensures usesSignal && signalAborted ==> o == Failed(AbortError)
    ensures s.Responded? && !(usesSignal && signalAborted) ==>
              o == (if !IsOk(s.status) then Failed(HttpError(s.status))
                    else if s.json.None? then Failed(DecodeError)
                    else Succeeded(s.json.value))
    ensures s.Returned? && !(usesSignal && signalAborted) ==> o == Succeeded(s.value)
    ensures s.Rejected? && !(usesSignal && signalAborted) ==> o == Failed(s.err)
  {
    if usesSignal && signalAborted then Failed(AbortError)
    else match s
      case Responded(status, json) =>
        if !IsOk(status) then Failed(HttpError(status))
        else if json.None? then Failed(DecodeError)
        else Succeeded(json.value)
      case Returned(v) => Succeeded(v)
      case Rejected(e) => Failed(e)
  }

  /** `setTimeout(() => fetchData(attempt + 1), retryDelay(attempt))`. */
  datatype RetryRequest = RetryRequest(attempt: nat, delayMs: int)

  /** What an attempt does with its outcome. */
  datatype Fate =
    | Publish(payload: Payload)      // cache write, `setData`, `onSuccess`
    | Retry(request: RetryRequest)   // schedule the next attempt, publish nothing
    | Report(err: Error)             // `setError`, `onError`
    | Discard                        // `AbortError`: return silently

  /**
   * The `catch` block's decision (and the happy path of `try`): an abort is
   * dropped, any other error is retried while `attempt < retry`, and reported
   * once retries are used up.
   */
  function FateOf(attempt: nat, retry: int, delay: RetryDelay, o: Outcome): (f: Fate)
    ensures o.Succeeded? <==> f.Publish?
    ensures f.Publish? ==> f.payload == o.payload
    ensures f.Discard? <==> o.Failed? && o.err.Name() == AbortErrorName
    ensures f.Retry? <==> o.Failed? && o.err.Name() != AbortErrorName && attempt < retry
    ensures f.Retry? ==> f.request == RetryRequest(attempt + 1, DelayFor(delay, attempt))
    ensures f.Report? <==> o.Failed? && o.err.Name() != AbortErrorName && attempt >= retry
    ensures f.Report? ==> f.err == o.err
  {
    match o
    case Succeeded(p) => Publish(p)
    case Failed(e) =>
      if e.Name() == AbortErrorName then Discard
      else if attempt < retry then Retry(RetryRequest(attempt + 1, DelayFor(delay, attempt)))
      else Report(e)
  }

  /** The fate of a whole attempt: classify the settlement, then decide. */
  function Resolution(cfg: Config, attempt: nat, s: Settlement, signalAborted: bool): (f: Fate)
    ensures !cfg.hasCustomFetcher && signalAborted ==> f == Discard
    ensures cfg.hasCustomFetcher && s.Returned? ==> f == Publish(s.value)
    ensures f.Retry? ==> attempt < cfg.retry && f.request == RetryRequest(attempt + 1, DelayFor(cfg.retryDelay, attempt))
    ensures f.Report? ==> attempt >= cfg.retry && f.err.Name() != AbortErrorName
  {
    FateOf(attempt, cfg.retry, cfg.retryDelay, Classify(s, !cfg.hasCustomFetcher, signalAborted))
  }

  /**
   * A non-ok status meets the same fate as any other non-abort error the
   * transport or a `customFetcher` throws: the same retry, or a report.
   */
  lemma NonOkStatusIsAFailure(cfg: Config, attempt: nat, status: int, json: Option<Payload>, e: Error)
    requires !cfg.hasCustomFetcher && !IsOk(status) && e.Name() != AbortErrorName
    ensures Resolution(cfg, attempt, Responded(status, json), false) == FateOf(attempt, cfg.retry, cfg.retryDelay, Failed(HttpError(status)))
    ensures var f1 := Resolution(cfg, attempt, Responded(status, json), false);
            var f2 := Resolution(cfg, attempt, Rejected(e), false);
            f1.Retry? == f2.Retry? && f1.Report? == f2.Report? && (f1.Retry? ==> f1 == f2)
  {
  }

  /**
   * Once an attempt's signal is aborted, the built-in transport's resolution is
   * discarded whatever the server answered: no data, no error, no retry.
   */
  lemma SupersededFetchIsDiscarded(cfg: Config, attempt: nat, s: Settlement)
    requires !cfg.hasCustomFetcher
    ensures Resolution(cfg, attempt, s, true) == Discard
  {
  }

  /** A `customFetcher` never sees the signal, so aborting its attempt changes nothing. */
  lemma CustomFetcherIgnoresAbort(cfg: Config, attempt: nat, s: Settlement)
    requires cfg.hasCustomFetcher
    ensures Resolution(cfg, attempt, s, true) == Resolution(cfg, attempt, s, false)
  {
  }

  /** With the default `retry = 0` the first failure is reported at once. */
  lemma NoRetryByDefault(url: Url, s: Settlement, e: Error)
    requires Classify(s, true, false) == Failed(e) && e.Name() != AbortErrorName
    ensures Resolution(Defaults(url), 0, s, false) == Report(e)
  {
  }
}
