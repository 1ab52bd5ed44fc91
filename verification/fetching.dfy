/**
 * The fetch half of `scrape_cartier_watch`: request pacing, the user-agent
 * choice, the bounded retry loop with exponential backoff, the HTTP status
 * check, and the extraction that follows them.
 *
 * The network is a parameter: `net(k)` is what the `k`-th call of the HTTP
 * GET does (answer, raise a request exception, or raise another `Exception`).
 * Sleeps are not performed; what is kept of `time.sleep` is which durations
 * it refuses.
 */
module Fetching {
  import opened Common
  import opened Items
  import opened Extraction

  /** An HTTP answer: its status code, the parsed page, and the text the HTTP library gives the error it raises for that status. */
  datatype Response = Response(status: int, page: Page, statusErrorText: string)

  /** What one call of the HTTP GET does. */
  datatype Attempt =
    | Answered(response: Response)
    | RequestError(text: string)   // connection failure, timeout, ... (a request exception: retried)
    | OtherError(text: string)     // any other `Exception`: not caught by the loop

  /** The exceptions that leave `scrape_cartier_watch`. */
  datatype FetchError =
    | RetriesExhausted(text: string)          // the last attempt's request exception, re-raised
    | Unexpected(text: string)                // an exception the loop does not catch
    | HttpStatus(status: int, text: string)   // raised by the status check after the loop
    | ResponseUnbound                         // the loop ran zero times, so no response was ever bound
    | NegativeSleep                           // `time.sleep` was given a negative duration (ValueError)
    | SleepOverflow                           // `time.sleep` was given a duration too long for it (OverflowError)

  /** The text of a raised error as string formatting renders it. */
  function Describe(e: FetchError): string {
    match e
    case RetriesExhausted(t) => t
    case Unexpected(t) => t
    case HttpStatus(_, t) => t
    case ResponseUnbound => "cannot access local variable 'response' where it is not associated with a value"
    case NegativeSleep => "sleep length must be non-negative"
    case SleepOverflow => "timestamp too large to convert to C _PyTime_t"
  }

  /** `time.sleep` converts its duration to nanoseconds held in a signed 64-bit integer. */
  const MinSleepNanoseconds: int := -0x8000_0000_0000_0000
  const MaxSleepNanoseconds: int := 0x7FFF_FFFF_FFFF_FFFF

  /** The duration in seconds converts to a signed 64-bit count of nanoseconds. */
  predicate Convertible(seconds: real) {
    MinSleepNanoseconds as real <= seconds * 1000000000.0 <= MaxSleepNanoseconds as real
  }

  /**
   * The exception `time.sleep` raises for a duration in seconds, if any. The
   * conversion comes first, so a duration too long in either direction is an
   * overflow; only a convertible duration can be refused as negative.
   */
  function SleepError(seconds: real): Option<FetchError> {
    if !Convertible(seconds) then Some(SleepOverflow)
    else if seconds < 0.0 then Some(NegativeSleep)
    else None
  }

  /** `time.sleep` accepts the duration. */
  predicate SleepFits(seconds: real) {
    SleepError(seconds).None?
  }

  /** `time.sleep` accepts the backoff `factor ** exponent`. */
  predicate BackoffFits(factor: nat, exponent: nat) {
    SleepFits(Pow(factor, exponent) as real)
  }

  /** Configuration defaults used when the key is missing. */
  const DefaultMaxRetries: int := 3
  const DefaultBackoffFactor: nat := 2

  /** The configuration values the fetcher reads: each retry key is optional. */
  datatype Settings = Settings(maxRetries: Option<int>, backoffFactor: Option<nat>, minDelay: real, maxDelay: real)

  /** The maximal number of attempts in force. */
  function MaxRetries(s: Settings): int {
    s.maxRetries.GetOr(DefaultMaxRetries)
  }

  /** The backoff base in force. */
  function BackoffFactor(s: Settings): nat {
    s.backoffFactor.GetOr(DefaultBackoffFactor)
  }

  /** The user-agent strings one of which is sent with the request. */
  const UserAgents: seq<string> := [
    "Mozilla/5.0 (Windows NT 10.0; Win64; x64) AppleWebKit/537.36 (KHTML, like Gecko) Chrome/115.0.0.0 Safari/537.36",
    "Mozilla/5.0 (Macintosh; Intel Mac OS X 10_15_7) AppleWebKit/605.1.15 (KHTML, like Gecko) Version/15.1 Safari/605.1.15",
    "Mozilla/5.0 (X11; Linux x86_64) AppleWebKit/537.36 (KHTML, like Gecko) Chrome/114.0.0.0 Safari/537.36"
  ]

  /** The user agent picked by the random choice, given the index it drew. */
  function ChooseUserAgent(index: nat): (agent: string)
    requires index < |UserAgents|
    ensures agent in UserAgents
  {
    UserAgents[index]
  }

  /** A draw of the random source: a number in [0, 1). */
  type UnitSample = u: real | 0.0 <= u < 1.0

  /**
   * The pre-request delay drawn uniformly between the two configured bounds,
   * given the unit sample `u` the random source drew (`lo + (hi - lo) * u`).
   */
  function PacingDelay(lo: real, hi: real, u: UnitSample): (d: real)
    ensures lo <= hi ==> lo <= d <= hi
    ensures hi < lo ==> hi < d <= lo
  {
    var span := hi - lo;
    var offset := span * u;
    OffsetBounds(span, u, offset);
    lo + offset
  }

  /** A quantity scaled by a unit sample lies between zero and the quantity. */
  lemma OffsetBounds(x: real, u: real, scaled: real)
    requires 0.0 <= u < 1.0
    requires scaled == x * u
    ensures 0.0 <= x ==> 0.0 <= scaled <= x
    ensures x < 0.0 ==> x < scaled <= 0.0
  {
    var rest := 1.0 - u;
    ProductNonNegative(if 0.0 <= x then x else -x, u);
    ProductNonNegative(if 0.0 <= x then x else -x, rest);
    ProductPositive(if 0.0 <= x then x else -x, rest);
    assert x - scaled == x * rest;
  }

  /** The product of two non-negative reals is non-negative. */
  lemma ProductNonNegative(a: real, b: real)
    requires 0.0 <= a && 0.0 <= b
    ensures 0.0 <= a * b
  {
  }

  /** The product of two positive reals is positive. */
  lemma ProductPositive(a: real, b: real)
    requires 0.0 <= a && 0.0 < b
    ensures 0.0 < a ==> 0.0 < a * b
  {
  }

  /** Everything the retry loop does: how many requests it made, the backoff sleeps between them, and what it ended with. */
  datatype Trace = Trace(attempts: nat, sleeps: seq<nat>, outcome: Result<Response, FetchError>)

  /**
   * How the loop ends on an attempt that it does not retry: an answer is kept,
   * a foreign exception escapes at once, and a request exception escapes on
   * the last permitted attempt, or earlier when `time.sleep` refuses the
   * backoff that would follow it.
   */
  predicate Settles(attempt: Attempt, isLast: bool, backoffFits: bool, outcome: Result<Response, FetchError>) {
    match attempt
    case Answered(r) => outcome == Ok(r)
    case OtherError(t) => outcome == Err(Unexpected(t))
    case RequestError(t) =>
      if isLast then outcome == Err(RetriesExhausted(t)) else !backoffFits && outcome == Err(SleepOverflow)
  }

  /**
   * The retry loop from attempt number `a` on: attempt, and on a request
   * exception either re-raise (last attempt) or sleep `factor ** (a - 1)`
   * seconds, which `time.sleep` may refuse, and try again.
   */
  function AttemptsFrom(net: nat -> Attempt, maxRetries: int, factor: nat, a: nat): Trace
    requires 1 <= a
    decreases if a <= maxRetries then maxRetries - a + 1 else 0
  {
    if maxRetries < a then
      Trace(0, [], Err(ResponseUnbound))
    else
      match net(a)
      case Answered(r) => Trace(1, [], Ok(r))
      case OtherError(e) => Trace(1, [], Err(Unexpected(e)))
      case RequestError(e) =>
        if a == maxRetries then
          Trace(1, [], Err(RetriesExhausted(e)))
        else if !BackoffFits(factor, a - 1) then
          Trace(1, [], Err(SleepOverflow))
        else
          var rest := AttemptsFrom(net, maxRetries, factor, a + 1);
          Trace(rest.attempts + 1, [Pow(factor, a - 1)] + rest.sleeps, rest.outcome)
  }

  /**
   * What the loop does from attempt `a` on, characterised attempt by attempt:
   * it retries exactly the request exceptions before the last permitted
   * attempt whose backoff `time.sleep` accepts, sleeps `factor ** (k - 1)`
   * after each retried attempt `k`, and ends as `Settles` says on the attempt
   * it stops at.
   */
  lemma {:induction false} AttemptsFromSpec(net: nat -> Attempt, maxRetries: int, factor: nat, a: nat)
    requires 1 <= a
    decreases if a <= maxRetries then maxRetries - a + 1 else 0
    ensures var t := AttemptsFrom(net, maxRetries, factor, a);
      && (maxRetries < a ==> t == Trace(0, [], Err(ResponseUnbound)))
      && (a <= maxRetries ==> 1 <= t.attempts <= maxRetries - a + 1 && |t.sleeps| == t.attempts - 1)
      && (forall i :: 0 <= i < |t.sleeps| ==> t.sleeps[i] == Pow(factor, a - 1 + i) && SleepFits(t.sleeps[i] as real))
      && (forall j :: a <= j < a + t.attempts - 1 ==> net(j).RequestError?)
      && (a <= maxRetries ==>
            var last := a + t.attempts - 1;
            Settles(net(last), last == maxRetries, BackoffFits(factor, last - 1), t.outcome))
  {
    if a <= maxRetries && net(a).RequestError? && a < maxRetries && BackoffFits(factor, a - 1) {
      AttemptsFromSpec(net, maxRetries, factor, a + 1);
    }
  }

  /** One failed, non-final attempt: one more request and one more sleep in front of what the remaining attempts do. */
  lemma RetryStep(net: nat -> Attempt, maxRetries: int, factor: nat, a: nat)
    requires 1 <= a < maxRetries
    requires net(a).RequestError? && BackoffFits(factor, a - 1)
    ensures var rest := AttemptsFrom(net, maxRetries, factor, a + 1);
      AttemptsFrom(net, maxRetries, factor, a) == Trace(rest.attempts + 1, [Pow(factor, a - 1)] + rest.sleeps, rest.outcome)
  {
  }

  /** The whole retry loop, started at attempt 1. */
  function RetryLoop(net: nat -> Attempt, maxRetries: int, factor: nat): Trace {
    AttemptsFrom(net, maxRetries, factor, 1)
  }

  /**
   * The retry loop written as the `for attempt in range(1, max_retries + 1)`
   * loop it is, with `break` on an answer, `raise` on the last failure and
   * the backoff sleep between failures; it computes what `RetryLoop` describes.
   */
  method FetchLoop(net: nat -> Attempt, maxRetries: int, factor: nat)
    returns (attempts: nat, sleeps: seq<nat>, outcome: Result<Response, FetchError>)
    ensures Trace(attempts, sleeps, outcome) == RetryLoop(net, maxRetries, factor)
  {
    attempts, sleeps := 0, [];
    var attempt := 1;
    while attempt <= maxRetries
      invariant 1 <= attempt
      invariant attempts == attempt - 1
      invariant attempt == 1 || attempt <= maxRetries
      invariant Resumes(net, maxRetries, factor, attempt, attempts, sleeps)
      decreases maxRetries - attempt
    {
      attempts := attempts + 1;
      assert sleeps + [] == sleeps;
      match net(attempt)
      case Answered(r) =>
        outcome := Ok(r);
        return;
      case OtherError(e) =>
        outcome := Err(Unexpected(e));
        return;
      case RequestError(e) =>
        if attempt == maxRetries {
          outcome := Err(RetriesExhausted(e));
          return;
        }
        var pause := Pow(factor, attempt - 1);
        if SleepError(pause as real).Some? {
          outcome := Err(SleepOverflow);
          return;
        }
        RetryStep(net, maxRetries, factor, attempt);
        assert sleeps + [Pow(factor, attempt - 1)] + AttemptsFrom(net, maxRetries, factor, attempt + 1).sleeps
          == sleeps + ([Pow(factor, attempt - 1)] + AttemptsFrom(net, maxRetries, factor, attempt + 1).sleeps);
        sleeps := sleeps + [Pow(factor, attempt - 1)];
        attempt := attempt + 1;
    }
    outcome := Err(ResponseUnbound);
    assert sleeps + [] == sleeps;
  }

  /**
   * Loop invariant of `FetchLoop`: the requests and sleeps done so far,
   * followed by what the loop does from attempt `a` on, are the whole loop.
   */
  ghost predicate Resumes(net: nat -> Attempt, maxRetries: int, factor: nat, a: nat, attempts: nat, sleeps: seq<nat>)
    requires 1 <= a
  {
    var rest := AttemptsFrom(net, maxRetries, factor, a);
    RetryLoop(net, maxRetries, factor) == Trace(attempts + rest.attempts, sleeps + rest.sleeps, rest.outcome)
  }

  /** The status check: statuses 400 to 599 raise, every other status passes the response on. */
  function RaiseForStatus(r: Response): (checked: Result<Response, FetchError>)
    ensures checked.Err? <==> 400 <= r.status < 600
    ensures checked.Ok? ==> checked.value == r
    ensures checked.Err? ==> checked.error == HttpStatus(r.status, r.statusErrorText)
  {
    if 400 <= r.status < 600 then Err(HttpStatus(r.status, r.statusErrorText)) else Ok(r)
  }

  /**
   * One call of the scraper, given the random source's draw for the pacing
   * delay: sleep that delay (a duration `time.sleep` refuses raises before any
   * request), then the retry loop, then the status check, then extraction.
   */
  function Scrape(net: nat -> Attempt, settings: Settings, sample: UnitSample): Result<ItemInfo, FetchError> {
    match SleepError(PacingDelay(settings.minDelay, settings.maxDelay, sample))
    case Some(e) => Err(e)
    case None =>
      match RetryLoop(net, MaxRetries(settings), BackoffFactor(settings)).outcome
      case Err(e) => Err(e)
      case Ok(r) =>
        match RaiseForStatus(r)
        case Err(e) => Err(e)
        case Ok(r') => Ok(Extract(r'.page))
  }

  /**
   * The pacing sleep: a delay `time.sleep` refuses ends the scrape with that
   * refusal before any request. A negative delay that still converts to
   * nanoseconds is the only source of the negative-sleep error. Bounds that
   * both fit never make the pacing sleep fail; bounds both negative and
   * convertible, or both too long on the same side, always do.
   */
  lemma PacingSleepFails(net: nat -> Attempt, settings: Settings, sample: UnitSample)
    ensures var delay := PacingDelay(settings.minDelay, settings.maxDelay, sample);
      SleepError(delay).Some? ==> Scrape(net, settings, sample) == Err(SleepError(delay).value)
    ensures Scrape(net, settings, sample) == Err(NegativeSleep)
      <==> var delay := PacingDelay(settings.minDelay, settings.maxDelay, sample); delay < 0.0 && Convertible(delay)
    ensures SleepFits(settings.minDelay) && SleepFits(settings.maxDelay) ==>
      SleepFits(PacingDelay(settings.minDelay, settings.maxDelay, sample))
    ensures settings.minDelay < 0.0 && settings.maxDelay < 0.0 && Convertible(settings.minDelay) && Convertible(settings.maxDelay)
      ==> Scrape(net, settings, sample) == Err(NegativeSleep)
    ensures 0.0 <= settings.minDelay && 0.0 <= settings.maxDelay && !SleepFits(settings.minDelay) && !SleepFits(settings.maxDelay)
      ==> Scrape(net, settings, sample) == Err(SleepOverflow)
    ensures settings.minDelay < 0.0 && settings.maxDelay < 0.0 && !Convertible(settings.minDelay) && !Convertible(settings.maxDelay)
      ==> Scrape(net, settings, sample) == Err(SleepOverflow)
  {
    if SleepError(PacingDelay(settings.minDelay, settings.maxDelay, sample)).None? {
      var t := RetryLoop(net, MaxRetries(settings), BackoffFactor(settings));
      AttemptsFromSpec(net, MaxRetries(settings), BackoffFactor(settings), 1);
      assert t.outcome.Err? ==> t.outcome.error != NegativeSleep;
    }
  }

  /** With at least one attempt allowed, the loop makes between 1 and `maxRetries` requests and sleeps once fewer. */
  lemma AttemptBound(net: nat -> Attempt, maxRetries: int, factor: nat)
    requires 1 <= maxRetries
    ensures var t := RetryLoop(net, maxRetries, factor);
      1 <= t.attempts <= maxRetries && |t.sleeps| == t.attempts - 1
  {
    AttemptsFromSpec(net, maxRetries, factor, 1);
  }

  /** With no attempt allowed, nothing is requested and the missing response is what escapes. */
  lemma NoAttemptsAllowed(net: nat -> Attempt, maxRetries: int, factor: nat)
    requires maxRetries < 1
    ensures RetryLoop(net, maxRetries, factor) == Trace(0, [], Err(ResponseUnbound))
    ensures Scrape(net, Settings(Some(maxRetries), Some(factor), 0.0, 0.0), 0.0) == Err(ResponseUnbound)
  {
  }

  /**
   * The loop stops at the first attempt that does not raise a request
   * exception, and keeps what it did, provided `time.sleep` accepted the
   * backoffs before it.
   */
  lemma StopsAtFirstSettled(net: nat -> Attempt, maxRetries: int, factor: nat, k: nat)
    requires 1 <= k <= maxRetries
    requires !net(k).RequestError?
    requires forall j :: 1 <= j < k ==> net(j).RequestError?
    requires forall e: nat :: e + 1 < k ==> BackoffFits(factor, e)
    ensures var t := RetryLoop(net, maxRetries, factor);
      t.attempts == k
      && (net(k).Answered? ==> t.outcome == Ok(net(k).response))
      && (net(k).OtherError? ==> t.outcome == Err(Unexpected(net(k).text)))
  {
    AttemptsFromSpec(net, maxRetries, factor, 1);
  }

  /**
   * A backoff `time.sleep` refuses ends the loop: after request exceptions on
   * attempts 1 to `k`, with `k` not the last permitted attempt, the refused
   * sleep after attempt `k` escapes as the overflow error, after `k` requests.
   */
  lemma BackoffOverflowEscapes(net: nat -> Attempt, maxRetries: int, factor: nat, k: nat)
    requires 1 <= k < maxRetries
    requires forall j :: 1 <= j <= k ==> net(j).RequestError?
    requires forall e: nat :: e + 1 < k ==> BackoffFits(factor, e)
    requires !BackoffFits(factor, k - 1)
    ensures var t := RetryLoop(net, maxRetries, factor);
      t.attempts == k && |t.sleeps| == k - 1 && t.outcome == Err(SleepOverflow)
  {
    AttemptsFromSpec(net, maxRetries, factor, 1);
    var t := RetryLoop(net, maxRetries, factor);
    if t.attempts < k {
      assert false;
    } else if k < t.attempts {
      BackoffSchedule(net, maxRetries, factor, k);
      assert false;
    }
  }

  /** Backoff schedule: the sleep after failed attempt `k` lasts `factor ** (k - 1)` seconds, a duration `time.sleep` accepts. */
  lemma BackoffSchedule(net: nat -> Attempt, maxRetries: int, factor: nat, k: nat)
    requires 1 <= k <= |RetryLoop(net, maxRetries, factor).sleeps|
    ensures net(k).RequestError?
    ensures RetryLoop(net, maxRetries, factor).sleeps[k - 1] == Pow(factor, k - 1)
    ensures BackoffFits(factor, k - 1)
  {
    AttemptsFromSpec(net, maxRetries, factor, 1);
  }

  /**
   * Permanent transport failure, with backoffs `time.sleep` accepts:
   * `maxRetries` attempts, `maxRetries - 1` backoff sleeps, and the last
   * attempt's exception re-raised.
   */
  lemma PermanentFailure(net: nat -> Attempt, maxRetries: int, factor: nat)
    requires 1 <= maxRetries
    requires forall k :: 1 <= k <= maxRetries ==> net(k).RequestError?
    requires forall e: nat :: e + 1 < maxRetries ==> BackoffFits(factor, e)
    ensures var t := RetryLoop(net, maxRetries, factor);
      t.attempts == maxRetries
      && |t.sleeps| == maxRetries - 1
      && (forall i :: 0 <= i < |t.sleeps| ==> t.sleeps[i] == Pow(factor, i))
      && t.outcome == Err(RetriesExhausted(net(maxRetries).text))
  {
    AttemptsFromSpec(net, maxRetries, factor, 1);
  }

  /**
   * A response with an error status is not retried: when attempt `k` is the
   * first that does not raise a request exception and it answers with an
   * error status, the loop ends after `k` requests and the scrape fails with
   * that status, whatever the retry bound beyond `k`.
   */
  lemma NoRetryOnBadStatus(net: nat -> Attempt, settings: Settings, sample: UnitSample, k: nat)
    requires SleepFits(settings.minDelay) && SleepFits(settings.maxDelay)
    requires 1 <= k <= MaxRetries(settings)
    requires forall j :: 1 <= j < k ==> net(j).RequestError?
    requires forall e: nat :: e + 1 < k ==> BackoffFits(BackoffFactor(settings), e)
    requires net(k).Answered? && 400 <= net(k).response.status < 600
    ensures RetryLoop(net, MaxRetries(settings), BackoffFactor(settings)).attempts == k
    ensures Scrape(net, settings, sample) == Err(HttpStatus(net(k).response.status, net(k).response.statusErrorText))
  {
    PacingSleepFails(net, settings, sample);
    StopsAtFirstSettled(net, MaxRetries(settings), BackoffFactor(settings), k);
  }

  /** A scrape succeeds exactly when the pacing sleep was accepted and the loop obtained a response whose status is not an error status; it then extracts that page. */
  lemma ScrapeSucceeds(net: nat -> Attempt, settings: Settings, sample: UnitSample)
    ensures var o := RetryLoop(net, MaxRetries(settings), BackoffFactor(settings)).outcome;
      Scrape(net, settings, sample).Ok? <==>
        SleepFits(PacingDelay(settings.minDelay, settings.maxDelay, sample)) && o.Ok? && !(400 <= o.value.status < 600)
    ensures var o := RetryLoop(net, MaxRetries(settings), BackoffFactor(settings)).outcome;
      Scrape(net, settings, sample).Ok? ==> Scrape(net, settings, sample).value == Extract(o.value.page)
  {
  }

  /** With the default settings, three timeouts in a row give three requests, sleeps of 1 and 2 seconds, and the third timeout re-raised. */
  lemma DefaultsThreeTimeouts(timeout: string)
    ensures var net := (k: nat) => RequestError(timeout);
      var s := Settings(None, None, 0.0, 0.0);
      RetryLoop(net, MaxRetries(s), BackoffFactor(s)) == Trace(3, [1, 2], Err(RetriesExhausted(timeout)))
  {
    var net := (k: nat) => RequestError(timeout);
    var s := Settings(None, None, 0.0, 0.0);
    assert MaxRetries(s) == 3 && BackoffFactor(s) == 2;
    assert Pow(2, 0) == 1 && Pow(2, 1) == 2;
    assert BackoffFits(2, 0) && BackoffFits(2, 1);
    PermanentFailure(net, 3, 2);
    var t := RetryLoop(net, 3, 2);
    assert t.sleeps == [1, 2];
  }

  /**
   * A backoff factor of 10^10 with three attempts: after two request
   * exceptions the second backoff (10^10 seconds) is refused, so the answer
   * a third attempt would get is never requested.
   */
  lemma HugeBackoffFactor(timeout: string, answer: Response)
    ensures var net := (k: nat) => if k <= 2 then RequestError(timeout) else Answered(answer);
      RetryLoop(net, 3, 10000000000) == Trace(2, [1], Err(SleepOverflow))
  {
    var net := (k: nat) => if k <= 2 then RequestError(timeout) else Answered(answer);
    assert Pow(10000000000, 0) == 1 && Pow(10000000000, 1) == 10000000000;
    assert BackoffFits(10000000000, 0) && !BackoffFits(10000000000, 1);
    BackoffOverflowEscapes(net, 3, 10000000000, 2);
    var t := RetryLoop(net, 3, 10000000000);
    BackoffSchedule(net, 3, 10000000000, 1);
    assert t.sleeps == [1];
  }
}
