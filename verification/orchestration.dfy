/**
 * The script's entry point: scrape once, notify when the item can be bought,
 * notify the error when scraping raised, and leave with an exit status.
 *
 * Python's `try / except Exception / else / finally` is modelled by its
 * completions: a block ends normally or raises, and a `finally` block that
 * raises replaces whatever was pending.
 */
module Orchestration {
  import opened Common
  import opened Items
  import opened Extraction
  import opened Fetching

  /** What can be raised: an `Exception` from the scraper, or `SystemExit` (not an `Exception`, so never caught by `except Exception`). */
  datatype Raised = Failure(error: FetchError) | SystemExit(code: int)

  /** How a block of statements ends. */
  datatype Completion = Normal | Raising(exc: Raised)

  /** A `try` statement with one `except Exception` handler, an `else` block and a `finally` block. */
  function TryStatement(body: Completion, handler: Completion, orElse: Completion, final: Completion): (c: Completion)
    ensures final.Raising? ==> c == final
    ensures final.Normal? && body.Normal? ==> c == orElse
    ensures final.Normal? && body.Raising? && body.exc.Failure? ==> c == handler
    ensures final.Normal? && body.Raising? && body.exc.SystemExit? ==> c == body
  {
    var pending :=
      match body
      case Normal => orElse
      case Raising(Failure(_)) => handler
      case Raising(SystemExit(_)) => body;
    if final.Raising? then final else pending
  }

  /** The process exit status after the main block ends: 0 after a normal end, the code of `SystemExit`, 1 after an uncaught exception. */
  function ExitStatus(c: Completion): int {
    match c
    case Normal => 0
    case Raising(SystemExit(code)) => code
    case Raising(Failure(_)) => 1
  }

  /** The text shown for an optional value by string formatting: the text itself, or "None". */
  function Shown(value: Option<string>): string {
    match value
    case Some(s) => s
    case None => "None"
  }

  /** The notification announcing that the item can be bought: title, price, status line and the page URL, one per line. */
  function AvailableMessage(info: ItemInfo, url: string): string {
    "상품명: " + Shown(info.title) + "\n가격: " + Shown(info.price) + "\n구매 가능 상태: 구매 가능\nURL: " + url
  }

  /** Prefix of the notification sent when scraping raised ("scraping error occurred: "). */
  const ErrorPrefix: string := "스크래핑 오류 발생: "

  /** The notification sent when scraping raised. */
  function ErrorMessage(e: FetchError): string {
    ErrorPrefix + Describe(e)
  }

  /** What a run leaves behind: the messages handed to the notifier, in order, and the process exit status. */
  datatype RunResult = RunResult(notified: seq<string>, exitStatus: int)

  /** The messages the `try` body and its handler hand to the notifier. */
  function Notifications(scraped: Result<ItemInfo, FetchError>, url: string): seq<string> {
    match scraped
    case Ok(info) => if IsAvailable(info) then [AvailableMessage(info, url)] else []
    case Err(e) => [ErrorMessage(e)]
  }

  /** How the `try` body ends: normally, or with the scraper's exception. */
  function BodyCompletion(scraped: Result<ItemInfo, FetchError>): Completion {
    match scraped
    case Ok(_) => Normal
    case Err(e) => Raising(Failure(e))
  }

  /**
   * The main block as written: the handler calls `sys.exit(1)`, and the
   * `finally` block calls `sys.exit(0)`, whose `SystemExit` replaces it.
   */
  function Run(net: nat -> Attempt, settings: Settings, sample: UnitSample, url: string): (r: RunResult)
    ensures r.exitStatus == 0
    ensures |r.notified| <= 1
    ensures r.notified == [] <==> Scrape(net, settings, sample).Ok? && !IsAvailable(Scrape(net, settings, sample).value)
  {
    var scraped := Scrape(net, settings, sample);
    var ending := TryStatement(BodyCompletion(scraped), Raising(SystemExit(1)), Normal, Raising(SystemExit(0)));
    RunResult(Notifications(scraped, url), ExitStatus(ending))
  }

  /**
   * The main block with the exit status its handler evidently intends: the
   * `finally` block only logs, so the handler's `sys.exit(1)` ends the process.
   */
  function RunIntended(net: nat -> Attempt, settings: Settings, sample: UnitSample, url: string): (r: RunResult)
    ensures r.exitStatus == 0 <==> Scrape(net, settings, sample).Ok?
    ensures r.exitStatus == 1 <==> Scrape(net, settings, sample).Err?
    ensures r.notified == Run(net, settings, sample, url).notified
  {
    var scraped := Scrape(net, settings, sample);
    var ending := TryStatement(BodyCompletion(scraped), Raising(SystemExit(1)), Normal, Normal);
    RunResult(Notifications(scraped, url), ExitStatus(ending))
  }

  /** The available message names the title, the price and the URL. */
  lemma AvailableMessageMentions(info: ItemInfo, url: string)
    ensures Contains(AvailableMessage(info, url), Shown(info.title))
    ensures Contains(AvailableMessage(info, url), Shown(info.price))
    ensures Contains(AvailableMessage(info, url), url)
  {
    var m := AvailableMessage(info, url);
    var t := Shown(info.title);
    var p := Shown(info.price);
    var tail := "\n구매 가능 상태: 구매 가능\nURL: ";
    ContainsMiddle("상품명: ", t, "\n가격: " + p + tail + url);
    assert m == "상품명: " + t + ("\n가격: " + p + tail + url);
    ContainsMiddle("상품명: " + t + "\n가격: ", p, tail + url);
    assert m == ("상품명: " + t + "\n가격: ") + p + (tail + url);
    ContainsMiddle("상품명: " + t + "\n가격: " + p + tail, url, "");
    assert m == ("상품명: " + t + "\n가격: " + p + tail) + url + "";
  }

  /** Available item: exactly one notification, naming title, price and URL; exit status 0. */
  lemma AvailablePath(net: nat -> Attempt, settings: Settings, sample: UnitSample, url: string)
    requires Scrape(net, settings, sample).Ok? && IsAvailable(Scrape(net, settings, sample).value)
    ensures var r := Run(net, settings, sample, url);
      var info := Scrape(net, settings, sample).value;
      |r.notified| == 1
      && Contains(r.notified[0], Shown(info.title))
      && Contains(r.notified[0], Shown(info.price))
      && Contains(r.notified[0], url)
      && r.exitStatus == 0
  {
    AvailableMessageMentions(Scrape(net, settings, sample).value, url);
  }

  /** Item still contact-agent only: no notification; exit status 0. */
  lemma UnavailablePath(net: nat -> Attempt, settings: Settings, sample: UnitSample, url: string)
    requires Scrape(net, settings, sample).Ok? && !IsAvailable(Scrape(net, settings, sample).value)
    ensures Run(net, settings, sample, url) == RunResult([], 0)
  {
  }

  /** Scraping raised: exactly one notification, the error prefix followed by the error's text; exit status 0 all the same. */
  lemma ErrorPath(net: nat -> Attempt, settings: Settings, sample: UnitSample, url: string)
    requires Scrape(net, settings, sample).Err?
    ensures var r := Run(net, settings, sample, url);
      |r.notified| == 1
      && r.notified[0][..|ErrorPrefix|] == ErrorPrefix
      && r.notified[0][|ErrorPrefix|..] == Describe(Scrape(net, settings, sample).error)
      && r.exitStatus == 0
  {
  }

  /** Whatever the handler raises, a `finally` block that calls `sys.exit(0)` makes the process exit with 0. */
  lemma FinallyExitWins(body: Completion, handler: Completion, orElse: Completion)
    ensures ExitStatus(TryStatement(body, handler, orElse, Raising(SystemExit(0)))) == 0
  {
  }

  /**
   * A page showing the contact-agent label: nothing is sent
   * and the run exits with 0.
   */
  lemma ScenarioContactAgent(title: Option<string>, price: Option<string>, url: string)
    ensures var page := Page(title, price, Some(ContactAgentText));
      var net := (k: nat) => Answered(Response(200, page, ""));
      Run(net, Settings(None, None, 0.0, 0.0), 0.0, url) == RunResult([], 0)
  {
    var page := Page(title, price, Some(ContactAgentText));
    var net := (k: nat) => Answered(Response(200, page, ""));
    StopsAtFirstSettled(net, 3, 2, 1);
  }

  /**
   * A page offering purchase: exactly one notification
   * naming "Santos de Cartier", "12,000,000" and the URL is sent; exit status 0.
   */
  lemma ScenarioAvailable(url: string)
    ensures var page := Page(Some("Santos de Cartier"), Some("12,000,000"), Some("구매 가능"));
      var net := (k: nat) => Answered(Response(200, page, ""));
      var r := Run(net, Settings(None, None, 0.0, 0.0), 0.0, url);
      |r.notified| == 1
      && Contains(r.notified[0], "Santos de Cartier")
      && Contains(r.notified[0], "12,000,000")
      && Contains(r.notified[0], url)
      && r.exitStatus == 0
  {
    var page := Page(Some("Santos de Cartier"), Some("12,000,000"), Some("구매 가능"));
    var net := (k: nat) => Answered(Response(200, page, ""));
    var settings := Settings(None, None, 0.0, 0.0);
    StopsAtFirstSettled(net, 3, 2, 1);
    assert "구매 가능" != ContactAgentText by {
      assert "구매 가능"[0] != ContactAgentText[0];
    }
    AvailablePath(net, settings, 0.0, url);
  }

  /**
   * All three attempts time out: one error notification is
   * sent; the run as written exits with 0 where the intended status is 1.
   */
  lemma ScenarioTimeouts(timeout: string, url: string)
    ensures var net := (k: nat) => RequestError(timeout);
      var settings := Settings(None, None, 0.0, 0.0);
      && Run(net, settings, 0.0, url) == RunResult([ErrorPrefix + timeout], 0)
      && RunIntended(net, settings, 0.0, url) == RunResult([ErrorPrefix + timeout], 1)
  {
    DefaultsThreeTimeouts(timeout);
  }

  /**
   * Negative delay bounds: the pacing sleep raises before any request, so one
   * error notification is sent, whatever the network would have done.
   */
  lemma NegativeDelayNotifies(net: nat -> Attempt, sample: UnitSample, url: string)
    ensures Run(net, Settings(None, None, -1.0, -1.0), sample, url)
      == RunResult([ErrorPrefix + "sleep length must be non-negative"], 0)
  {
    PacingSleepFails(net, Settings(None, None, -1.0, -1.0), sample);
  }

  /**
   * Delay bounds of 10^10 seconds: `time.sleep` refuses the duration before
   * any request, so one error notification is sent.
   */
  lemma OversizedDelayNotifies(net: nat -> Attempt, sample: UnitSample, url: string)
    ensures Run(net, Settings(None, None, 10000000000.0, 10000000000.0), sample, url)
      == RunResult([ErrorPrefix + "timestamp too large to convert to C _PyTime_t"], 0)
  {
    PacingSleepFails(net, Settings(None, None, 10000000000.0, 10000000000.0), sample);
  }

  /**
   * Negative delay bounds too long to convert: the conversion to nanoseconds
   * fails before the sign is looked at, so the notification carries the
   * overflow text, not the negative-duration one.
   */
  lemma HugeNegativeDelayNotifies(net: nat -> Attempt, sample: UnitSample, url: string)
    ensures Run(net, Settings(None, None, -10000000000.0, -10000000000.0), sample, url)
      == RunResult([ErrorPrefix + "timestamp too large to convert to C _PyTime_t"], 0)
  {
    PacingSleepFails(net, Settings(None, None, -10000000000.0, -10000000000.0), sample);
  }
}
