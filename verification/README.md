# Cartier stock watcher — Dafny model

The watcher is a one-shot script (`check_item.py`). It fetches one product page and retries transport failures with exponential backoff. It then extracts the title, the price and the availability button from the page. When the button no longer reads "상담원 연결" ("connect to an agent"), it sends a Telegram notification. When scraping raises, it sends an error notification instead.

This project models that pipeline as pure functions. The modules are:

- `Common`: `Option`, `Result`, `Pow` and a substring predicate.
- `Items`: `ItemInfoResponse` as the `ItemInfo` datatype, with `to_dict` and `is_available_item`.
- `Extraction`: the page reduced to its three anchor texts, and the field extraction.
- `Fetching`: request pacing, user-agent choice, the retry/backoff loop, the status check and `scrape_cartier_watch` as a whole.
- `Orchestration`: the `__main__` block. Python's `try / except / else / finally` is made explicit as completions, so the exit status is derived rather than asserted.

The network is a parameter `net: nat -> Attempt`. `net(k)` says what the `k`-th GET does: it answers, it raises a request exception, or it raises some other exception. Randomness also comes in as parameters: the unit sample of the pacing delay and the index of the chosen user agent. Sleeps are recorded as values, not performed. The notifier is modelled as the list of messages handed to it.

The model follows the code, including in five places where the code does something a reader may not expect:

- The status check raises only for statuses 400 to 599. This is the HTTP library's `raise_for_status`. Other non-2xx statuses, such as an unfollowed 3xx, pass on to extraction.
- After a scraping error the process exits with 0, not 1 (see Findings).
- With `max_retries` of 0 or less, the loop never runs. The script then raises `UnboundLocalError` at line 163 and goes down the error path.
- A negative pacing delay (for example both delay bounds at -1) makes `time.sleep` raise before any request. The script then sends one error notification.
- `time.sleep` also raises for a duration outside the signed 64-bit range of nanoseconds (beyond about 292 years either way). This overflow is checked before the sign, so a hugely negative delay gives the overflow error, not the negative-duration one. This can happen at the pacing sleep (both delay bounds at 1e10, or at -1e10) or at a backoff sleep (a backoff factor of 10^10). The backoff failure is not a request exception, so it is not retried: it leaves the loop at once and is reported as a scraping error.

## Model

| member | source | states |
|---|---|---|
| Items.ToDict | check_item.py:96-101 | the dictionary has exactly the keys title, price, is_contact_agent, and reading it back gives the same record |
| Items.FromDictThenToDict | check_item.py:96-101 | every well-formed three-key dictionary is the `to_dict` form of the record it reads as (the round trip in the other direction) |
| Items.AvailableIffNotContactAgent | check_item.py:103-108 | an item is available exactly when it is not contact-agent-only, independently of title and price |
| Extraction.Extract | check_item.py:165-182 | title is absent exactly when the name anchor is; price is absent exactly when the price anchor is; present texts are kept; the contact-agent flag holds exactly when the availability anchor exists and reads exactly the label |
| Extraction.FieldsIndependent | check_item.py:167-182 | changing one anchor leaves the other two extracted fields unchanged |
| Extraction.AvailableIff | check_item.py:175-182 | the page is classified available exactly when the availability anchor is missing or its text differs from the label |
| Extraction.MissingAnchorIsAvailable | check_item.py:176-182 | a page with no availability anchor is classified available |
| Extraction.ContactAgentExact | check_item.py:182 | the label itself matches; the label written without its inner space, with a doubled inner space, or its first word alone does not |
| Fetching.ChooseUserAgent | check_item.py:135 | the chosen user agent is one of the configured strings |
| Fetching.PacingDelay | check_item.py:132 | the pacing delay lies between the two bounds, in either order of the bounds |
| Fetching.AttemptsFromSpec | check_item.py:142-159 | the loop retries exactly the request exceptions before the last permitted attempt whose backoff `time.sleep` accepts; it makes at most the permitted number of requests and one sleep fewer; the sleep after attempt k is factor^(k-1) and within the sleep limit; it ends with the answer, the foreign exception, the last request exception, or the sleep overflow error |
| Fetching.FetchLoop | check_item.py:142-159 | the `for` loop with `break` and `raise` yields the same attempts, sleeps and outcome as the recursive description |
| Fetching.RaiseForStatus | check_item.py:163 | the status check fails exactly for statuses 400-599, with that status; otherwise it passes the response on unchanged |
| Fetching.AttemptBound | check_item.py:142-148 | with max_retries of at least 1, between 1 and max_retries requests are made |
| Fetching.NoAttemptsAllowed | check_item.py:142-163 | with max_retries below 1, no request is made and the unbound response is the error |
| Fetching.StopsAtFirstSettled | check_item.py:142-148 | when the earlier backoffs fit the sleep limit, the loop stops at the first attempt that does not raise a request exception, and keeps that attempt's answer or exception |
| Fetching.BackoffOverflowEscapes | check_item.py:149-159 | when the backoff after failed attempt k (not the last) exceeds the sleep limit, the loop ends after k requests and k-1 sleeps with the overflow error instead of retrying |
| Fetching.BackoffSchedule | check_item.py:149-159 | every recorded sleep follows a failed attempt k, lasts factor^(k-1), and is a duration `time.sleep` accepts |
| Fetching.PermanentFailure | check_item.py:149-159 | under permanent transport failure, with backoffs within the sleep limit: N attempts, N-1 sleeps of factor^0 .. factor^(N-2), then the last exception re-raised |
| Fetching.NoRetryOnBadStatus | check_item.py:142-163 | when both delay bounds and the earlier backoffs fit the sleep limit, and attempt k is the first that does not raise a request exception and answers with an error status, the loop ends after k requests and the scrape fails with that status, whatever max_retries is beyond k |
| Fetching.PacingSleepFails | check_item.py:132-133 | a rejected pacing delay is the scrape's error; the error is the negative-sleep one exactly when the drawn delay is negative and still converts to 64-bit nanoseconds; bounds within the limit give a delay within it; two negative convertible bounds always give the negative-sleep error; two bounds both beyond the limit on the same side, positive or negative, always give the overflow error |
| Fetching.ScrapeSucceeds | check_item.py:130-204 | a scrape succeeds exactly when `time.sleep` accepted the pacing delay and the loop got a response with a non-error status; it then returns that page's extraction |
| Fetching.DefaultsThreeTimeouts | check_item.py:139-159 | with the default settings, three timeouts give 3 requests, sleeps [1, 2] and the third timeout raised |
| Fetching.HugeBackoffFactor | check_item.py:139-159 | with a backoff factor of 10^10 and max_retries 3, two timeouts give 2 requests, one 1-second sleep and the overflow error, even though the third attempt would have answered |
| Orchestration.TryStatement | check_item.py:212-235 | a raising `finally` replaces the pending completion; otherwise the else block, the handler, or the uncaught `SystemExit` decides |
| Orchestration.FinallyExitWins | check_item.py:233-235 | with `sys.exit(0)` in `finally`, the exit status is 0 whatever the body and handler did |
| Orchestration.Run | check_item.py:207-235 | at most one notification; no notification exactly when the scrape succeeded and the item is unavailable; exit status 0 on every path |
| Orchestration.RunIntended | check_item.py:226-235 | same notifications as Run; exit status 0 exactly when scraping succeeded and 1 exactly when it raised |
| Orchestration.AvailableMessageMentions | check_item.py:216-221 | the available message contains the title, the price and the URL |
| Orchestration.AvailablePath | check_item.py:214-223 | available item: exactly one notification, containing title, price and URL; exit status 0 |
| Orchestration.UnavailablePath | check_item.py:224-225 | unavailable item: no notification and exit status 0 |
| Orchestration.ErrorPath | check_item.py:226-230 | scraping raised: exactly one notification, the error prefix followed by the error text; exit status still 0 |
| Orchestration.ScenarioContactAgent | check_item.py:213-225 | a page showing the contact-agent label leads to no notification and exit 0 |
| Orchestration.ScenarioAvailable | check_item.py:213-223 | a purchasable "Santos de Cartier" at "12,000,000" leads to one notification naming both and the URL |
| Orchestration.ScenarioTimeouts | check_item.py:226-235 | three timeouts lead to one error notification; exit 0 as written, 1 as intended |
| Orchestration.NegativeDelayNotifies | check_item.py:130-133 | with both delay bounds at -1, whatever the network does, the run sends exactly one error notification with the sleep error's text and exits 0 |
| Orchestration.OversizedDelayNotifies | check_item.py:130-133 | with both delay bounds at 1e10 seconds, whatever the network does, the run sends exactly one error notification with the overflow error's text and exits 0 |
| Orchestration.HugeNegativeDelayNotifies | check_item.py:130-133 | with both delay bounds at -1e10 seconds, the conversion to nanoseconds fails before the sign is checked, so the one error notification carries the overflow text, not the negative-duration text; exit 0 |

## Left out

- Network I/O: `requests.get`, its headers and its timeout are replaced by the `net` parameter. The texts of request exceptions and of the HTTP status error come in as data.
- HTML parsing: BeautifulSoup, the CSS selectors and `get_text(strip=True)` are replaced by three optional, already stripped anchor texts. Parsing is not expected to fail, so no parse error is modelled.
- Time: `time.perf_counter` and the timing telemetry are side effects only. Sleeps are not performed: backoff sleeps are recorded as numbers, and of each sleep only whether `time.sleep` accepts its duration is modelled.
- Fetching.PacingDelay: uses exact reals, not floating point. The unit sample from `random.random()` is a parameter in [0, 1). The sleep limit is tested on the exact product of the delay and 10^9, so a delay within a rounding step of 2^63 - 1 nanoseconds may be classified differently from CPython's float conversion.
- Fetching.SleepError: the limits of -2^63 and 2^63 - 1 nanoseconds and the overflow message are those of CPython on 64-bit platforms; other platforms and versions may use another limit or wording.
- Fetching.ChooseUserAgent: the random draw is a parameter, an index into the list.
- Fetching.BackoffFactor: the factor is a natural number. Float and negative factors are not modelled; with a negative factor, `time.sleep` of a negative value raises. A factor large enough that some backoff exceeds the sleep limit is modelled: the loop ends with the overflow error.
- Fetching.MaxRetries: a non-integer `max_retries` (which makes `range` raise) is not modelled.
- Fetching.Describe: the text of `UnboundLocalError` is the Python 3.11+ wording; earlier versions word it differently.
- Configuration loading (TOML), logger and handler setup, `JSONFormatter`, the static request headers and the unused proxy list.
- `send_telegram_message` is modelled only as appending its message to `notified`. Its own check for a missing token or chat id, the HTTP POST and its swallowed errors are not modelled, so a listed message may not have been delivered.
- Exceptions that are not `Exception` subclasses, such as `KeyboardInterrupt` during a request or sleep, are not modelled. The handler at line 226 does not catch them, so no error notification is sent, and the `finally` block still exits with 0.
- Extractor idempotence needs no lemma: every member here is a pure function of its arguments.

## Findings

| source | as written | input that shows it | evidently intended | confidence | as-written member | corrected member |
|---|---|---|---|---|---|---|
| check_item.py:226-235 | the handler calls `sys.exit(1)`, but the `finally` block's `sys.exit(0)` raises a new `SystemExit` that replaces it, so the process exits with 0 after a scraping error | default settings and three request timeouts in a row | exit status 1 after an unrecovered scraping error | high, not executed | Orchestration.ScenarioTimeouts | Orchestration.RunIntended |
