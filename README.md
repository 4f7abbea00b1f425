# TikGuard report engine in Dafny

A model of the `TikGuard` class of `tikguard_gui.py`, the engine of a tool that
reports a video. Given a video URL and a reason, the engine does two things:

- `get_report_url` fetches the video page and extracts a report URL with three
  strategies tried in order:
  1. the `data-report-url` of the first button with class `report-button-class`;
  2. the script pattern `reportUrl":"(https[^"]+)"`, tried on each script in turn;
  3. the body pattern `"reportUrl":"(https[^"]+)"`, run over the raw body.
- `submit_report` posts the reason to that URL.

Both run `for attempt in range(max_retries)`. Each attempt first calls
`switch_proxy`, which, when the pool is not empty, points the session's `http`
and `https` proxies at a random pool member. A transport fault is logged and
followed by a sleep of `retry_delay` seconds.

Files and modules:

- `wrappers.dfy` (`Wrappers`): `Option`, standing for Python's `None`-or-value.
- `seqs.dfy` (`Seqs`): `FirstFrom`, the first index whose element satisfies a predicate.
- `scan.dfy` (`Scan`): the two fixed regular expressions, written as scanners.
  `IsMatchAt` and `Leftmost` are their reference meaning.
- `strategies.dfy` (`Strategies`): the page record (buttons, script texts, body)
  and the three strategies, each proved against its reference meaning.
- `retry.dfy` (`Retry`): the two retry loops as pure functions (`ResolveFrom`,
  `SubmitFrom`) of the policy, the outcome of each attempt and the random
  draws. A GET attempt's outcome is a fault or the URL its page yields, if any;
  a POST attempt's is a fault or acceptance. `GetStep` and `PostStep` are what
  one attempt does that shows. The lemmas say which result comes back, how many calls,
  switches and sleeps happen, and which proxy each call goes through.
- `engine.dfy` (`Engine`): the class `TikGuard` and a `Session` holding the
  `proxies` map, and the network's answer to a GET (a fault or a parsed page),
  which `Outcomes` turns into attempt outcomes by running the extraction
  strategies on each page. Its methods run the source's loops and are proved to behave as
  `ResolveFrom` and `SubmitFrom` say. The ghost field `effects` logs the
  observable events: proxy switches, GETs and POSTs (each with the proxies in
  force), and sleeps.
- `scenarios.dfy` (`Scenarios`): concrete situations.

Oracles replace what the model cannot see:

- The network is a sequence: `net[k]` is what attempt `k` meets. For a GET it
  is `PageFault` or `PageFetched(page)`; for a POST it is `PostFault` or `Accepted`.
- `random.choice(self.proxies)` is `rng[k]`, a draw made on attempt `k`. The
  chosen proxy is `pool[rng[k] % |pool|]`, and `ChooseReachesAll` shows every
  member can be chosen.
- The HTML parser is abstracted: the page arrives already split into buttons,
  script texts and body.

Facts about the code the model follows:

- A fault on the last attempt also sleeps (tikguard_gui.py:66-68), so n
  faults give n sleeps.
- `max_retries` and `retry_delay` are never validated (tikguard_gui.py:21-29).
  With `max_retries <= 0` nothing is attempted; see `NonPositiveRetries`. A
  negative `retry_delay` is not harmless: `time.sleep` raises `ValueError`
  inside the `except` handler (tikguard_gui.py:68, 84), so the first fault
  makes the operation raise. The model does not capture this; see "## Left out".
- The proxy-file reader (tikguard_gui.py:145) strips each line but keeps blank
  ones. That reader is not part of this model.

## Model

| member | source | states |
|---|---|---|
| `Seqs.FirstFrom` | tikguard_gui.py:49 | The returned index is the first at or after `from` whose element satisfies the predicate, or the length when none does. This is the "first match" of `soup.find` and of the loops. |
| `Scan.RunEnd` | tikguard_gui.py:56 | The greedy `[^"]+` stops at the first quote at or after `j`, or at the end of the text: nothing before it is a quote. |
| `Scan.MatchAt` | tikguard_gui.py:56 | The pattern anchored at one position. It has no contract of its own; `Scan.MatchAtCorrect` specifies it. |
| `Scan.Find` | tikguard_gui.py:56 | The hit found is a match of the anchored scanner, and no earlier start position at or after `from` gives one. This is how `re.search` tries positions left to right. |
| `Scan.MatchAtCorrect` | tikguard_gui.py:56 | Both directions: the anchored scanner captures `u` at `i` exactly when the key is at `i`, then `u` (`https` plus at least one character, no quote), then a quote. |
| `Scan.FindCorrect` | tikguard_gui.py:56-64 | The search from the start returns exactly the leftmost match, which is also `findall(...)[0]`. It returns nothing exactly when no position matches. |
| `Scan.MarkerPrecedesMatch` | tikguard_gui.py:55-56 | Every match of the script pattern contains `reportUrl`, so the `in` test before the search never hides a match. |
| `Scan.QuotedCapture` | tikguard_gui.py:56 | A text made of the key, a possible capture and a quote has its leftmost match at 0, capturing exactly that capture. |
| `Strategies.FromButton` | tikguard_gui.py:49-51 | Strategy 1. No contract of its own; specified by `Strategies.FromButtonCorrect` and `Strategies.ButtonWins`. |
| `Strategies.FromScript` | tikguard_gui.py:55-58 | Strategy 2 on one script. No contract of its own; specified by `Strategies.FromScriptCorrect`. |
| `Strategies.FromScripts` | tikguard_gui.py:53-58 | Strategy 2. No contract of its own; specified by `Strategies.FromScriptsCorrect`. |
| `Strategies.FromBody` | tikguard_gui.py:61-64 | Strategy 3. No contract of its own; specified by `Strategies.FromBodyCorrect`. |
| `Strategies.Extract` | tikguard_gui.py:48-64 | The three strategies in order. No contract of its own; specified by `Strategies.ExtractCorrect`, `Strategies.ButtonWins` and `Strategies.ScannedUrlShape`. |
| `Strategies.FromButtonCorrect` | tikguard_gui.py:49-51 | Strategy 1 yields `u` exactly when the first button with the report class has `data-report-url` equal to `u`. It yields nothing exactly when there is no such button or that button lacks the attribute. Later buttons are never consulted. |
| `Strategies.FromScriptCorrect` | tikguard_gui.py:55-58 | One script yields exactly the leftmost capture of the script pattern, and yields nothing exactly when the pattern has no match. |
| `Strategies.FromScriptsCorrect` | tikguard_gui.py:53-58 | Strategy 2 yields `u` exactly when some script is the first to match and its leftmost capture is `u`. It yields nothing exactly when no script matches. |
| `Strategies.FromBodyCorrect` | tikguard_gui.py:61-64 | Strategy 3 yields exactly the leftmost capture of the body pattern in the body, and nothing exactly when the pattern does not match. |
| `Strategies.ButtonWins` | tikguard_gui.py:49-51 | If the first report button carries a URL, the page yields that URL, whatever the scripts and body hold. |
| `Strategies.ExtractCorrect` | tikguard_gui.py:48-64 | Both directions, in reference terms. A page yields `u` exactly when one of these holds: the first report button's URL is `u`; or there is no button URL and the first matching script's leftmost capture is `u`; or neither applies and the body's leftmost capture is `u`. It yields nothing exactly when all three fail. |
| `Strategies.ScannedUrlShape` | tikguard_gui.py:53-64 | A URL found by strategy 2 or 3 starts with `https`, is at least six characters long and contains no quote. |
| `Retry.Choose` | tikguard_gui.py:32-33 | No proxy is chosen exactly when the pool is empty. A chosen proxy is a member of the pool. |
| `Retry.ChooseReachesAll` | tikguard_gui.py:33 | Every pool member is chosen by some draw, so modelling `random.choice` by a draw loses no outcome. |
| `Retry.Switch` | tikguard_gui.py:32-37 | The session proxies after `switch_proxy`. No contract of its own; specified by `Retry.SwitchRoutes`. |
| `Retry.SwitchRoutes` | tikguard_gui.py:31-37 | After a switch, the session proxies are unchanged if the pool is empty. Otherwise they are exactly `http` and `https`, both set to the chosen pool member. |
| `Retry.GetStep` | tikguard_gui.py:43-68 | What one GET attempt does that shows. No contract of its own; specified by `Retry.GetStepShape`. |
| `Retry.PostStep` | tikguard_gui.py:77-84 | What one POST attempt does that shows. No contract of its own; specified by `Retry.PostStepShape`. |
| `Retry.ResolveFrom` | tikguard_gui.py:40-69 | `get_report_url` as a function of the attempt outcomes and draws. No contract of its own; specified by `Retry.ResolveCounts`, `Retry.ResolveNoneIff`, `Retry.ResolveEffects` and `Retry.NonPositiveRetries`. |
| `Retry.SubmitFrom` | tikguard_gui.py:71-85 | `submit_report` as a function of the attempt outcomes and draws. No contract of its own; specified by `Retry.SubmitCounts`, `Retry.SubmitFailedIff`, `Retry.SubmitEffects` and `Retry.NonPositiveRetries`. |
| `Retry.GetStepShape` | tikguard_gui.py:43-68 | One attempt of `get_report_url` is one switch, then one GET of the video URL through the proxy that switch chose (or through the unchanged session proxies when the pool is empty), then one sleep of `retry_delay` exactly when the GET faulted. |
| `Retry.PostStepShape` | tikguard_gui.py:77-84 | One attempt of `submit_report` is one switch, then one POST of the payload through the proxy that switch chose (or through the unchanged session proxies when the pool is empty), then one sleep of `retry_delay` exactly when the POST faulted. |
| `Retry.ResolveCounts` | tikguard_gui.py:41-68 | Let `j` be the first attempt whose page yields a URL. Then `get_report_url` returns that URL after exactly `j+1` GETs and `j+1` proxy switches. If no attempt yields, it returns `None` after one GET and one switch per attempt (zero when `max_retries <= 0`). It sleeps once for each faulted attempt before `j`, the last attempt included, and never after a page that yields nothing. |
| `Retry.ResolveNoneIff` | tikguard_gui.py:41-69 | `get_report_url` returns `None` exactly when every attempt of `range(max_retries)` faulted or fetched a page from which no strategy extracts anything. |
| `Retry.NonPositiveRetries` | tikguard_gui.py:41 | With `max_retries <= 0` both operations return their default (`None`, the failure string) with no effects and the session unchanged. |
| `Retry.SubmitCounts` | tikguard_gui.py:76-85 | Let `j` be the first accepted attempt. `submit_report` returns the success string after exactly `j+1` POSTs and switches, with one sleep per earlier faulted attempt. Otherwise it returns the failure string after one POST, one switch and one sleep per attempt. |
| `Retry.SubmitFailedIff` | tikguard_gui.py:76-85 | `submit_report` returns one of its two strings. It returns the failure string exactly when every attempt faulted. This holds for `retry_delay >= 0` only; see "## Left out". |
| `Retry.MessagesDistinct` | tikguard_gui.py:81-85 | Only the success string contains `successfully`, which is the substring the caller tests for. |
| `Retry.ResolveEffects` | tikguard_gui.py:41-68 | Every call of `get_report_url` is a GET of the video URL. It comes right after a `switch_proxy` and goes through the proxy that switch chose, or through the unchanged session proxies when the pool is empty. Every sleep lasts `retry_delay`. |
| `Retry.SubmitEffects` | tikguard_gui.py:72-84 | Every call of `submit_report` is a POST of the same payload to the report URL. It comes right after a `switch_proxy` and goes through the proxy that switch chose, or through the unchanged session proxies when the pool is empty. Every sleep lasts `retry_delay`. |
| `Engine.Outcome` | tikguard_gui.py:43-68 | What one GET answer comes to: a fault stays a fault, and a page becomes the URL `Strategies.Extract` finds on it. No contract of its own; `Engine.TikGuard.TryGet` is proved against it. |
| `Engine.Outcomes` | tikguard_gui.py:41-68 | No contract of its own; `Engine.TikGuard.GetReportUrl` is stated through it, and `Strategies.ExtractCorrect` specifies each fetched element. |
| `Engine.Session.constructor` | tikguard_gui.py:22 | A fresh `requests.Session` has no proxies set. |
| `Engine.SearchScripts` | tikguard_gui.py:53-58 | The script loop, with its `reportUrl` test and `re.search`, returns what strategy 2 specifies: the first script's match, in order. |
| `Engine.ExtractReportUrl` | tikguard_gui.py:48-64 | The three strategies run in order with early returns give exactly what `Strategies.Extract` specifies. |
| `Engine.TikGuard.constructor` | tikguard_gui.py:21-29 | `max_retries` and `retry_delay` are stored unchanged. A missing or empty proxy list becomes the empty pool; otherwise the list is kept. The session starts with no proxies. |
| `Engine.TikGuard.SwitchProxy` | tikguard_gui.py:31-38 | With an empty pool the session proxies are unchanged. Otherwise they become exactly `http` and `https`, equal to each other and set to a pool member. The choice, or its absence for an empty pool, is recorded in `effects`. |
| `Engine.TikGuard.TryGet` | tikguard_gui.py:43-68 | One pass of the GET loop body: the session proxies become the switched ones, the result is the URL the page yields (none after a fault), and exactly `GetStep`'s effects are logged. |
| `Engine.TikGuard.GetReportUrl` | tikguard_gui.py:40-69 | The loop returns what `ResolveFrom` specifies for the outcomes of the pages met. It leaves the session proxies that function specifies and appends exactly its effects to the log. |
| `Engine.TikGuard.TryPost` | tikguard_gui.py:77-84 | One pass of the POST loop body: the session proxies become the switched ones, it reports acceptance exactly when the POST succeeded, and exactly `PostStep`'s effects are logged. |
| `Engine.TikGuard.SubmitReport` | tikguard_gui.py:71-85 | The POST body holds the caller's reason and the fixed `Spam or inappropriate content`. The loop returns, leaves and logs what `SubmitFrom` specifies. |
| `Scenarios.ScriptExample` | tikguard_gui.py:48-58 | A page with no report button and one script holding `reportUrl":"https://example.com/report/42"` yields exactly `https://example.com/report/42`, whatever its body. |
| `Scenarios.FaultThenEmptyPage` | tikguard_gui.py:41-69 | Two attempts: a fault, then a page with nothing to extract. The result is `None` after two GETs and one sleep. |
| `Scenarios.SingleProxySingleAttempt` | tikguard_gui.py:31-44 | With the pool `["p1"]` and one attempt, the only switch picks `p1` and there is no second switch. |

## Left out

- HTTP itself is not modelled: `requests.Session`, `get`, `post`, `raise_for_status`, headers and the User-Agent string. Each attempt's outcome is an oracle value instead. Every `RequestException` is one `PageFault` or `PostFault`.
- BeautifulSoup is not modelled. The page arrives as buttons in document order (whether the class list holds `report-button-class`, and the optional `data-report-url`), script texts in order, and the body text. bs4's class matching and `response.text` decoding are assumed.
- Exceptions other than `RequestException` are not modelled. In the source such an exception, from the parser for example, would propagate out of `get_report_url`.
- The general regular-expression engine is not modelled. Only the two fixed patterns are, as hand-written scanners.
- `random.choice` is an oracle draw, and its uniform distribution is not modelled.
- Retry.ResolveFrom and Retry.SubmitFrom do not model the `ValueError` that `time.sleep` raises for a negative `retry_delay` inside the `except` handler (tikguard_gui.py:68, 84). The source then raises on the first fault; the model records `Slept(retry_delay)` and goes on. What the model says about a run with a fault holds for `retry_delay >= 0` only.
- Retry.SubmitFailedIff: "one of its two strings" holds for `retry_delay >= 0` only, for the reason above.
- `time.sleep` and `logging` are not modelled. Sleeps appear only as `Slept(retry_delay)` events in the ghost log, and log lines not at all.
- `print_logo`, `main` and the tkinter front end `TikGuardApp`, with its file dialog, proxy-file reading and progress bar, are presentation and I/O. They are not part of this model.
- `Engine.TikGuard.GetReportUrl` and `Engine.TikGuard.SubmitReport` require one oracle entry per attempt. The source imposes no such precondition; the model needs an outcome and a draw for each attempt it makes.
