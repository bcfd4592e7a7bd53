# Decoy service — a Dafny model

The decoy service generates background browsing noise. A `DecoyService` repeatedly visits a random site from its website catalogue, or runs a search on a random engine. It clicks, scrolls and dismisses pop-ups through a Selenium or Playwright `BrowserAgent`, and counts what it did in an `ActivityTracker`. A session ends when it is stopped, when it expires, or when an exception ends it.

Two control layers drive the service:

- A daemon (`daemon.py`) answers JSON commands on a Unix socket and GET/POST requests on an HTTP bridge.
- A Flask server (`api_server.py`) offers `/api/start`, `/api/stop`, `/api/status` and `/api/schedule` over one global service.

The model keeps the source's own shape:

- Trackers, agents, services, the daemon and the Flask globals are classes whose methods update their fields.
- Loops stay loops with invariants: the nested-key walk, the scroll loop, the session loop, the receive loop and the accept loop.
- Pure logic is functions with lemmas: URL prefixing, selector first-match, expiry, the status merge, the activity-log filter, URL routing and the response builders.

The browser engine, the clock and the random draws are inputs to the model:

- A page is a `Page` value that says which queries succeed.
- Every engine outcome and random draw is a nondeterministic choice in its range. This includes whether Selenium's `driver.quit()` raises when the browser is closed, and the text of that error.
- Time is a whole number of seconds passed in by the caller.

| file | module | models |
|---|---|---|
| values.dfy | `Values` | JSON/YAML values, reply builders, `int()` / `str()` of integers |
| text.dfy | `Text` | `startswith`, `in`, `lower`, `strip`, `split('.')` |
| config.dfy | `Config` | `ConfigManager.get`, the typed settings |
| tracker.dfy | `Tracker` | `ActivityTracker` |
| randomness.dfy | `Randomness` | `RandomnessGenerator.get_random_element`, `shuffle_list` |
| browser.dfy | `Browser` | `SeleniumAgent` / `PlaywrightAgent`, `create_agent` |
| service.dfy | `Service` | `DecoyService` |
| daemon.dfy | `Daemon` | `DecoyDaemon`, `HTTPBridgeHandler` |
| api_server.dfy | `Api` | the Flask handlers over the global `service` |

Where the code does something a reader might not expect, the model follows the code:

- `PlaywrightAgent` has no `fill_search_form`. A search with that backend raises `AttributeError`, which ends the session (`Browser.BrowserAgent.FillSearchForm`).
- A visit or a search is counted only when the navigation (and, for a search, the form) succeeds. The number of counted activities can therefore be below the number of loop iterations (`Service.DecoyService.StartSession`).
- `start_session` ignores its argument. Expiry reads the configured `session_duration`.
- The tracker is created once per service. Its counters accumulate across sessions.
- `stop_session` leaves `start_time` as it was. It also runs when the browser fails to open.
- Selenium's `close_browser` does not catch what `driver.quit()` raises, and it never clears `driver`, so every later stop calls `quit()` again. When `quit()` raises, `stop_session` ends before `print_summary`, so `total_time_seconds` is not written. The exception then reaches the caller: `cmd_stop` answers its text and leaves `service_active` set, `/api/stop` answers 500, and `start_session`'s `finally` raises it. Playwright's `close_browser` catches everything.
- `get_summary` writes `total_time_seconds`. Because of that, stopping a session and asking the Flask server for its status both change the tracker.
- The daemon's `cmd_status` always reports the service's `sessionDurationMinutes`, which overrides the 0 default. Only `cmd_stop` clears `service_active`.

## Model

| member | source | states |
|---|---|---|
| Values.StrList | daemon.py:264-269 | a list of strings becomes a JSON list of the same length, item by item |
| Values.IntToString | api_server.py:196-196 | `str(i)` has at least one character and starts with a minus sign exactly when `i` is negative |
| Values.ParseInt | api_server.py:181-182 | `int(s)` on a string succeeds exactly for an optional sign followed by one or more ASCII digits; the value is the digits read in base 10, negated after a minus sign |
| Values.DigitsOfNat | api_server.py:181-182 | reading back the decimal digits of `n` gives `n` |
| Values.ParseShownInt | api_server.py:181-182 | `int(str(i)) == i` for every integer |
| Text.Lower | decoy_service/browser_agent.py:493-493 | ASCII lower-casing keeps the length and maps each character |
| Text.Strip | daemon.py:267-267 | `strip()` returns the piece of its input between the leading and the trailing whitespace: everything before and after the piece is whitespace, and the piece neither starts nor ends with whitespace |
| Text.StripKeepsMarker | daemon.py:266-267 | stripping never removes a substring that contains no whitespace at its ends |
| Text.SplitPiecesAreSepFree | decoy_service/utils.py:88-88 | no piece of `split('.')` contains a dot |
| Text.JoinSplit | decoy_service/utils.py:88-88 | joining the pieces of `split('.')` with dots gives back the key |
| Text.SplitJoin | decoy_service/utils.py:88-88 | splitting dot-free pieces joined with dots gives back the pieces |
| Config.ConfigManager.constructor | decoy_service/utils.py:56-59 | settings start empty |
| Config.ConfigManager.LoadSettings | decoy_service/utils.py:61-71 | settings become the parsed document |
| Config.ConfigManager.Get | decoy_service/utils.py:86-97 | the loop over the dotted key's parts returns the value the key path reaches, or the default when a non-dict is reached or the value is None; the result is never None unless the default is |
| Config.Walk | decoy_service/utils.py:88-95 | the walk over the key parts: no parts give the settings themselves, parts over a non-dict give nothing (the `return default` path), one part over a dict gives `dict.get` of it |
| Config.Resolve | decoy_service/utils.py:95-97 | the reached value unless nothing was reached or it is None, in which case the default |
| Config.WalkAppend | decoy_service/utils.py:91-95 | walking a key path in two halves equals walking it at once |
| Config.WalkThroughScalar | decoy_service/utils.py:92-95 | when a non-dict is reached before the keys run out, `get` returns the default |
| Config.MissingKeyGivesDefault | decoy_service/utils.py:93-97 | a key missing from a dict on the path makes `get` return the default |
| Config.NestedValueFound | decoy_service/utils.py:86-97 | when every prefix is a dict and the last key holds a non-None value, `get` returns it whatever the default |
| Config.DottedKeyPath | decoy_service/utils.py:88-88 | a key written as dot-joined dot-free parts is walked part by part |
| Tracker.RecordAllCounts | decoy_service/utils.py:114-132 | after any sequence of recordings each counter grew by the number of its events, the start and total time are kept, and no counter decreased |
| Tracker.RecordAllAppend | decoy_service/utils.py:114-132 | recording two sequences one after the other equals recording their concatenation |
| Tracker.Record | decoy_service/utils.py:114-132 | recording an event grows its counter by exactly one and keeps every other counter, the session start and the total time |
| Tracker.Summary | decoy_service/utils.py:139-145 | the summary has exactly the five keys `session_duration_minutes`, `websites_visited`, `total_clicks`, `search_queries`, `forms_filled` |
| Tracker.ActivityTracker.constructor | decoy_service/utils.py:103-112 | every counter starts at 0 and the session starts now |
| Tracker.ActivityTracker.RecordWebsiteVisit | decoy_service/utils.py:114-117 | `websites_visited` grows by exactly one and nothing else changes |
| Tracker.ActivityTracker.RecordClick | decoy_service/utils.py:119-122 | `clicks_made` grows by exactly one and nothing else changes |
| Tracker.ActivityTracker.RecordSearch | decoy_service/utils.py:124-127 | `search_queries` grows by exactly one and nothing else changes |
| Tracker.ActivityTracker.RecordFormFill | decoy_service/utils.py:129-132 | `forms_filled` grows by exactly one and nothing else changes |
| Tracker.ActivityTracker.GetSummary | decoy_service/utils.py:134-145 | reports the counters unchanged, with `clicks_made` under `total_clicks` and no `clicks_made` key; its only state change is writing `total_time_seconds` |
| Randomness.GetRandomElement | decoy_service/utils.py:181-183 | a member of a non-empty list; the empty list is the IndexError case |
| Randomness.ShuffleList | decoy_service/utils.py:186-190 | the result is a permutation of the input (same length and multiset), and the input is not changed |
| Browser.NormalizeUrl | decoy_service/browser_agent.py:107-108 | the navigated URL starts with `http` and ends with the given URL; it is the given URL exactly when that already starts with `http`, and `https://` followed by it otherwise |
| Browser.NormalizeIdempotent | decoy_service/browser_agent.py:338-339 | normalising twice equals normalising once |
| Browser.TakePrefix | decoy_service/browser_agent.py:125-125 | `s[:n]` is a prefix of `s` of length `min(n, len(s))`, or `len(s)+n` clamped at 0 when `n` is negative |
| Browser.FirstMatch | decoy_service/browser_agent.py:252-263 | the index of the first selector that succeeds, all earlier ones failing; none exactly when every selector fails |
| Browser.SelectBackend | decoy_service/browser_agent.py:491-498 | Playwright exactly when the lower-cased browser type is `playwright` |
| Browser.SelectBackendCases | decoy_service/browser_agent.py:493-498 | the default type gives Selenium; `Playwright` and `PLAYWRIGHT` give Playwright; `chrome` gives Selenium |
| Browser.ScrollLoop | decoy_service/browser_agent.py:158-178 | every pass draws its amounts from their ranges, the guard `position < 0.8 * height` held before each pass, and the loop stops when it fails (or the fuel runs out) |
| Browser.PositionNeverDecreases | decoy_service/browser_agent.py:162-178 | a pass scrolls down at least as far as it scrolls back, so the position never falls below 0 or below an earlier position |
| Browser.ClicksAppend | decoy_service/browser_agent.py:137-139 | clicks in a concatenation of actions add up |
| Browser.ScrollActionsHaveNoClicks | decoy_service/browser_agent.py:155-190 | scrolling clicks nothing |
| Browser.BrowserAgent.constructor | decoy_service/browser_agent.py:71-81 | a new agent has no browser open and has done nothing |
| Browser.BrowserAgent.OpenBrowser | decoy_service/browser_agent.py:83-102 | the browser is open exactly when opening reports success |
| Browser.BrowserAgent.VisitUrl | decoy_service/browser_agent.py:104-117 | on success (only with an open browser) exactly one navigation to the normalised URL is added; on failure nothing is |
| Browser.BrowserAgent.ClickableElements | decoy_service/browser_agent.py:119-128 | a prefix of the found elements of length at most `max_elements` (exactly that when enough were found), the empty list on failure |
| Browser.BrowserAgent.RandomClick | decoy_service/browser_agent.py:130-145 | with no clickable elements it returns false and clicks nothing; otherwise at most one click is added and the click count grows by one exactly when it returns true |
| Browser.BrowserAgent.ScrollPage | decoy_service/browser_agent.py:147-153 | with an open browser either one scroll by the amount is added or, when the script fails, nothing; with no browser nothing is added; the page and the browser state are kept |
| Browser.BrowserAgent.PageHeight | decoy_service/browser_agent.py:204-209 | the page's height, or 2000 when the script fails |
| Browser.BrowserAgent.NaturalScroll | decoy_service/browser_agent.py:155-190 | the scrolls added are a prefix of those of a valid scroll run over the page height: all of them exactly when it returns true, the ones before the failing script otherwise; none without a browser; scrolling clicks nothing |
| Browser.BrowserAgent.HandlePopups | decoy_service/browser_agent.py:240-266 | closes a pop-up exactly when some selector of the backend's list succeeds, and then clicks the first such selector |
| Browser.BrowserAgent.FillSearchForm | decoy_service/browser_agent.py:268-296 | raises exactly for the Playwright backend; otherwise submits the query into the first search selector that succeeds, and adds nothing when none does |
| Browser.Close | decoy_service/browser_agent.py:298-302 | closing raises exactly when the engine's `quit()` raises on a Selenium agent that has a driver, and then the browser stays as it was; otherwise it is closed; either way one more close is counted and nothing else changes |
| Browser.BrowserAgent.CloseBrowser | decoy_service/browser_agent.py:298-302 | the error raised and the agent's new state are those of `Close`: only a Selenium agent with a driver can raise, and its browser then stays as it was |
| Browser.CreateAgent | decoy_service/browser_agent.py:491-498 | a fresh, unopened agent of the selected backend, or none when the engine package is missing |
| Service.AllUrlsLength | decoy_service/decoy_service.py:39-44 | the flattened list is as long as all category lists together |
| Service.AllUrlsHoldsEveryList | decoy_service/decoy_service.py:39-44 | every URL of every category is in the flattened list |
| Service.AllUrlsFromLists | decoy_service/decoy_service.py:39-44 | every URL of the flattened list comes from some category |
| Service.Lookup | decoy_service/decoy_service.py:46-48 | the list stored under the first entry with the key, or none exactly when no entry has that key |
| Service.QueriesAreAlsoVisited | decoy_service/decoy_service.py:39-48 | the `search_queries` entry is flattened with the sites, so queries can be visited as URLs |
| Service.EnginesAreNormalized | decoy_service/decoy_service.py:152-156 | the search engine URLs are left unchanged by `visit_url`'s prefixing |
| Service.ExpiryDeadline | decoy_service/decoy_service.py:172-180 | a positive duration of `d` minutes has expired `60 * d` seconds after the start and not one second earlier; a negative duration has expired at the start |
| Service.SessionExpired | decoy_service/decoy_service.py:172-180 | expired exactly when the duration is not 0 and the elapsed seconds divided by 60, as a real number, reach the duration |
| Service.ExpiryIsMonotone | decoy_service/decoy_service.py:172-180 | once expired, a session stays expired |
| Service.ClicksTrackedTrans | decoy_service/decoy_service.py:62-116 | the tracker's click count following the agent's clicks composes over consecutive steps |
| Service.NoClicksAdded | decoy_service/decoy_service.py:62-116 | actions without clicks keep the click count in step |
| Service.AfterStop | decoy_service/decoy_service.py:244-251 | after `stop_session` the service is not running and keeps its start time; its agent, if any, has its browser closed with one more close and keeps its actions and page; no counter changes and `total_time_seconds` is the time since the session start |
| Service.Stop | decoy_service/decoy_service.py:244-254 | `stop_session` always clears `running` and keeps `start_time`; it raises exactly when closing the agent raises, and then no counter changes and the browser stays as it was; otherwise the new state is `AfterStop`'s |
| Service.StopTwice | decoy_service/decoy_service.py:244-254 | a second stop, at its own time, raises exactly when closing the same agent again raises, which a Selenium agent that ever had a driver can do even after a successful first stop; after a first stop that returned, the second adds one more close of the browser and, when it returns too, rewrites `total_time_seconds` for its own time; nothing else changes |
| Service.StatusOf | decoy_service/decoy_service.py:256-273 | exactly the four keys under `stats`: the tracker's visits, clicks and searches, and the whole minutes elapsed since the session start |
| Service.DecoyService.constructor | decoy_service/decoy_service.py:19-37 | fresh tracker at zero, no agent, not running, no start time |
| Service.DecoyService.FlattenWebsiteList | decoy_service/decoy_service.py:39-44 | the loop returns every category's URLs in order, as many as all lists hold |
| Service.DecoyService.SearchQueries | decoy_service/decoy_service.py:46-48 | with no `search_queries` entry the empty list; otherwise the list of an entry with that key |
| Service.DecoyService.GetRandomWebsite | decoy_service/decoy_service.py:50-53 | a configured site, or the IndexError case exactly when there are no sites |
| Service.DecoyService.GetRandomQuery | decoy_service/decoy_service.py:55-60 | a configured query, or `random topic` when there are none |
| Service.DecoyService.ClickTimes | decoy_service/decoy_service.py:80-83 | the click loop records a click exactly when the agent's click went through, at most one per pass, and changes no other counter |
| Service.DecoyService.Scroll | decoy_service/decoy_service.py:93-94 | a scroll inside an interaction records nothing |
| Service.DecoyService.DismissPopups | decoy_service/decoy_service.py:67-67 | closing a pop-up records no click |
| Service.DecoyService.ReadDeeply | decoy_service/decoy_service.py:73-84 | the reading style adds at most 2 recorded clicks, each matching a click sent to the page |
| Service.DecoyService.LookAtMedia | decoy_service/decoy_service.py:86-96 | the media style records nothing |
| Service.DecoyService.BrowseQuickly | decoy_service/decoy_service.py:98-116 | the browsing style adds at most `clicks_per_page_max` recorded clicks; it raises, doing nothing, exactly when `min > max` |
| Service.DecoyService.InteractWithPage | decoy_service/decoy_service.py:62-116 | only `clicks_made` changes, in step with the agent's clicks; deep reading adds at most 2 clicks, quick browsing at most `clicks_per_page_max`, media focus none; it raises exactly when quick browsing meets `min > max` |
| Service.DecoyService.VisitAndInteract | decoy_service/decoy_service.py:118-148 | a visit is counted exactly when the navigation to a configured site succeeds; no sites raises; clicks stay in step |
| Service.DecoyService.PerformSearch | decoy_service/decoy_service.py:150-170 | a search is counted only when the engine loads and the form is submitted (Selenium only); the query is a configured one or `random topic`; Playwright raises |
| Service.DecoyService.SubmitQuery | decoy_service/decoy_service.py:163-165 | a search is counted exactly when it is submitted, and only the search counter changes; a submitted search needs an open Selenium browser and adds a navigation to the engine followed by the query's submission; nothing is clicked; Playwright raises and counts nothing |
| Service.DecoyService.DoActivity | decoy_service/decoy_service.py:213-217 | one pass of the session loop adds at most one visit, and only when it chose a visit, at most one search, and only when it chose a search, no form fill, and clicks in step with the agent's; it raises only for a visit with no sites, quick browsing with `clicks_per_page_min > clicks_per_page_max`, or a search on Playwright, and always for a visit with no sites |
| Service.DecoyService.StopSession | decoy_service/decoy_service.py:244-254 | the error raised and the service's new state are those of `Stop`: not running and `start_time` kept; when nothing is raised, the agent's browser is closed and `total_time_seconds` written; when closing raises, it is a Selenium agent with a driver and the counters are untouched |
| Service.DecoyService.RunActivities | decoy_service/decoy_service.py:207-229 | the session loop ends only when `running` was cleared (after at least one pass, when it was set on entry), when the session expired (only once the duration is reached), when the last pass raised in one of the ways a pass can, or when the iterations ran out; every pass began before the session expired; no pass that returned was a visit with no sites; no counter decreases; visits and searches are bounded by the passes of their kind; `clicks_made` follows the agent's clicks |
| Service.DecoyService.StartSession | decoy_service/decoy_service.py:182-242 | whatever the ending, the service is left not running; its browser is closed unless the final `stop_session` raises, which only a Selenium agent with a driver can do; that error makes the answer a failure and leaves `total_time_seconds` unwritten by it; a session answers ok only when stopped after at least one pass, expired, or out of iterations; it fails in the loop only when the last pass raised in one of the ways a pass can; every pass began before the session expired; expiry only with a non-zero duration; no counter decreases; visits and searches are bounded by the passes of their kind; `clicks_made` grows by exactly the agent's clicks |
| Daemon.CommandOf | daemon.py:164-179 | each known command exactly when `command` holds its name; anything else, or a missing key as `unknown`, is unknown |
| Daemon.UnknownReply | daemon.py:178-179 | a failure with exactly `success` and `error`, whose error is `Unknown command: ` followed by the command string |
| Daemon.MissingCommandIsUnknown | daemon.py:166-179 | a request without `command` gets `Unknown command: unknown` |
| Daemon.StartReply | daemon.py:181-202 | `cmd_start` succeeds exactly when the service was loaded |
| Daemon.StopReply | daemon.py:204-220 | `cmd_stop` succeeds exactly when the service was loaded and, if it was active, `stop_session` did not raise; a raised error is answered with its text |
| Daemon.MergeStats | daemon.py:229-247 | `dict.update`: the keys of both, the service's values winning, the defaults kept elsewhere |
| Daemon.StatusReply | daemon.py:222-252 | not loaded: the failure; loaded: success, `running` is `service_active`, and the stats are the zeros updated by the service's |
| Daemon.StatusShowsServiceCounters | daemon.py:240-245 | the status reports the tracker's visits, clicks and searches, never the zero defaults |
| Daemon.TakeLast | daemon.py:265-265 | `lines[-20:]`: the last `min(n, len)` lines |
| Daemon.StrippedActivity | daemon.py:266-267 | stripping keeps an activity line an activity line |
| Daemon.ActivitiesAreActivities | daemon.py:264-267 | every reported line contains `Visited:` or `Searched:` |
| Daemon.ActivitiesExactly | daemon.py:264-267 | the reported activities are exactly the stripped activity lines of the window, in order: one per activity line, at increasing positions, none left out |
| Daemon.ActivityLogReply | daemon.py:254-272 | succeeds exactly when the log is readable: an unreadable log gives its error, a missing one the empty list, otherwise at most 20 strings that are all activity lines |
| Daemon.AtMostTwentyActivities | daemon.py:265-267 | at most 20 activities are reported |
| Daemon.FirstOf | daemon.py:49-49 | the first position holding one of the stop characters, or the end |
| Daemon.LastIndexOf | daemon.py:49-49 | the last position of the character, or -1 |
| Daemon.StripParams | daemon.py:49-49 | `;params` after the last path segment are cut; a path without `;` is unchanged |
| Daemon.UrlPath | daemon.py:49-49 | the parsed path has no query or fragment, and a plain path is its own path |
| Daemon.QueryAndFragmentIgnoredInPath | daemon.py:49-49 | a query string or fragment after a plain path is cut from the parsed path |
| Daemon.GetRoute | daemon.py:47-60 | each GET endpoint exactly when the parsed path is its path |
| Daemon.PostRoute | daemon.py:62-73 | start or stop exactly when the parsed path is theirs, else not found |
| Daemon.QueryAndFragmentIgnored | daemon.py:49-51 | a query string or fragment does not change the route |
| Daemon.Dispatch | daemon.py:164-278 | each command's effect on the daemon: only shutdown stops the accept loop; only stop changes the service, and only an active one, which it stops as `Stop` does; start launches a session only from inactive with a service and succeeds exactly when a service is loaded; stop succeeds exactly when a service is loaded and its `stop_session` did not raise; after stop the daemon stays active exactly when it was and `stop_session` raised, whose text is then the reply; an active daemon keeps its service |
| Daemon.StartTwice | daemon.py:181-202 | a second start changes nothing |
| Daemon.StartThenStop | daemon.py:181-220 | on a loaded, inactive daemon start succeeds; stop then succeeds exactly when closing the browser does not raise, and leaves the daemon inactive with the service stopped; when it raises, the reply is the error and the daemon stays active; either way one more session was launched |
| Daemon.StopAgain | daemon.py:204-220 | after a stop that succeeded, a second stop answers `Service already stopped` and changes nothing; after one that failed, the service is still active and the second stop calls `stop_session` again |
| Daemon.ClientOutcome | daemon.py:118-162 | handling a connection never restarts the accept loop; nothing received sends nothing and changes nothing; the only change to the service is stopping it, whether or not closing the browser raises |
| Daemon.ClientOutcomeCases | daemon.py:137-158 | invalid JSON gets `Invalid JSON: ...`, bad UTF-8 and a non-object get the exception's text, all without a state change; an object gets the reply and the effect of the command it names |
| Daemon.DecoyDaemon.constructor | daemon.py:95-116 | running, service inactive, the loaded service or none |
| Daemon.DecoyDaemon.CmdStart | daemon.py:181-202 | the reply and the new state are the start command's: active afterwards exactly when it was or the service is loaded, and a session is launched only from inactive |
| Daemon.DecoyDaemon.CmdStop | daemon.py:204-220 | the reply and the new state are the stop command's, given what `stop_session` raised: an active service's session is stopped as `Stop` does; the daemon becomes inactive unless `stop_session` raised, whose text is then the reply; an inactive or missing service is not touched and nothing is raised |
| Daemon.DecoyDaemon.CmdStatus | daemon.py:222-252 | the status command's reply: the failure without a service, otherwise `running` is `service_active` |
| Daemon.DecoyDaemon.CmdActivityLog | daemon.py:254-272 | the activity-log reply: no file gives an empty list, an unreadable one the error, otherwise the stripped activities among the last 20 lines |
| Daemon.DecoyDaemon.CollectActivities | daemon.py:264-267 | the loop collects exactly the activity lines of the window, stripped, in order |
| Daemon.DecoyDaemon.CmdShutdown | daemon.py:274-278 | the shutdown command's effect: the accept loop's flag is cleared and nothing else changes |
| Daemon.DecoyDaemon.ProcessCommand | daemon.py:164-179 | the reply and the new state are those of the command the request names, given what a stop raised; an unknown one gets the error naming it and changes nothing |
| Daemon.DecoyDaemon.ReceiveRequest | daemon.py:124-135 | the data is the chunks received before an empty one or the first that parses or fails to decode; every earlier prefix was invalid JSON |
| Daemon.DecoyDaemon.HandleClient | daemon.py:118-162 | the reply sent and the new state are those of handling the received data alone, given what a stop raised: no reply when nothing arrived, the error replies without a state change, the command's reply and effect for an object |
| Daemon.DecoyDaemon.Serve | daemon.py:305-320 | each connection gets the reply and the effect of handling it from the state the previous one left, given what its stop raised, if any; every connection but the last was accepted while the daemon was running; the loop stops before the end only once the daemon has stopped |
| Daemon.DecoyDaemon.DoGet | daemon.py:47-60 | status, activity log and health answers on their paths, not found elsewhere |
| Daemon.DecoyDaemon.DoPost | daemon.py:62-73 | start and stop on their paths reply and change the daemon as the start and stop commands do, a failing stop included; elsewhere not found and nothing changes |
| Api.StartResponse | api_server.py:36-61 | 400 `Service already running` exactly when a running service exists; 500 with the error when constructing fails; 200 `running` otherwise |
| Api.StopResponse | api_server.py:63-83 | 400 `Service not running` exactly when no service exists or it does not run; otherwise 500 with the error's text exactly when `stop_session` raised, and 200 `stopped` when it did not |
| Api.ExactlyOneRefuses | api_server.py:42-70 | in every state exactly one of start and stop is refused with 400 |
| Api.StatusBody | api_server.py:91-125 | `running` is true only for a present, running service; the status is `inactive`, `running` or `stopped` accordingly |
| Api.StatusZeroUnlessRunning | api_server.py:91-119 | unless a service runs every counter is 0, and `sessionDurationMinutes` appears exactly when a service exists |
| Api.StatusReportsTracker | api_server.py:105-112 | while running, the status reports the tracker's counters with `total_clicks` as `clicksMade` |
| Api.HasKey | api_server.py:175-175 | `in` on a dict tests its keys; on anything but a dict, list or string it raises |
| Api.ToInt | api_server.py:181-182 | `int()` keeps ints and rejects None, lists and dicts |
| Api.CheckSchedule | api_server.py:173-182 | a dict body is missing a parameter exactly when it lacks `interval` or `duration`; otherwise the first of them that `int()` rejects gives its error, and accepted parameters are the `int()` of both |
| Api.ShownIntervalAccepted | api_server.py:175-182 | an interval written as decimal text is read back as that number |
| Api.ScheduleResponse | api_server.py:175-203 | 400 exactly for a missing parameter; 200 exactly when the parameters convert and the scheduler is set up, echoing them; otherwise 500 with the conversion's or the set-up's error |
| Api.SchedulerAfter | api_server.py:184-190 | the global scheduler after the handler: kept when the body is rejected or the scheduler cannot be built; otherwise the new one, holding the job once `schedule_interval` ran and started only when `start` succeeded |
| Api.ScheduledOnlyOnSuccess | api_server.py:175-199 | a 200 reply means a started scheduler holding the requested interval and duration; a rejected body leaves the scheduler alone |
| Api.ApiServer.constructor | api_server.py:29-31 | no service, no thread, no scheduler |
| Api.ApiServer.StartService | api_server.py:36-61 | the start response; on success a fresh, not yet running service with the loaded configuration and zero counters replaces the old one and one thread is launched; otherwise nothing changes |
| Api.ApiServer.StopService | api_server.py:63-83 | the stop response, given what `stop_session` raised; a running service's new state is `Stop`'s, so on 200 it is `AfterStop`'s with `total_time_seconds` written; when refused nothing is raised; on 400 and 500 the counters are untouched |
| Api.ApiServer.GetStatus | api_server.py:85-129 | the status body, over the summary of the counters while running (which writes `total_time_seconds`); counters untouched otherwise |
| Api.ApiServer.ScheduleService | api_server.py:167-203 | the schedule response, and the scheduler of `SchedulerAfter`: a scheduler is installed before scheduling or starting it can fail |

## Left out

- The browser engines: Selenium and Playwright calls, DOM queries, user agents and `time.sleep`. A page is a `Page` value, and each engine outcome is a nondeterministic choice.
- `hover_element` and `interact_with_media` are not modelled. Neither changes a counter; `interact_with_media` is treated as doing nothing.
- Random distributions: `get_random_delay`'s triangular draw, the 0.7 and 0.15 probabilities, and `get_random_user_agent`. Every draw is a nondeterministic value in its integer range.
- Floating point. Times are whole seconds and durations whole minutes.
- Tracker.Summary: `session_duration_minutes` is whole minutes (integer division), not `elapsed / 60` as a float.
- Service.StatusOf: `round(..., 1)` is not modelled; the session duration is whole minutes, rounded down.
- Browser.ScrollLoop: the `0.8` factor is scaled by 5 to stay in integers.
- Browser.ScrollLoop: the loop carries a `fuel` bound on its passes. The source loop has no bound.
- Service.DecoyService.StartSession: the `while self.running` loop carries a `fuel` bound on its iterations. A run that uses all of it ends as `OutOfFuel`.
- Service.DecoyService.StartSession: a concurrent `stop_session` is seen only between iterations.
- Text.Lower: only ASCII letters are folded. Python's `lower()` also folds other scripts.
- Daemon.DecoyDaemon.Serve: connections are handled one after another. The accept loop may read `running` before or after the previous connection is handled, so one connection can be accepted after a shutdown. With real client threads more than one could be.
- Threads. The daemon serves clients one at a time and launches sessions without running them. The Flask server's session thread is not run, so a freshly started service is not yet running. Races such as two starts before `running` is set are not modelled.
- Sockets, `HTTPServer`, Flask, CORS headers, `do_OPTIONS`, signal handlers, `shutdown` and `_start_http_bridge`.
- JSON encoding and decoding. A byte string's decoding is a parameter `parse` of the receive loop.
- YAML loading (`load_settings`, `load_websites`), `Logger.setup_logging`, `print_summary` and logging. Settings are a typed record with the source's defaults applied, and the log file is a `LogFile` value.
- Daemon.UrlPath: the `scheme://netloc` form of a request target and `urlparse`'s whitespace stripping are not modelled.
- Values.Show: a list or dict command is shown as `[...]` or `{...}`, not as Python's full `repr`.
- Api.ToIntError: `repr` escaping of the string is not modelled.
- Values.ParseInt: the strings `int()` also accepts (surrounding whitespace, underscores between digits, non-ASCII digits) are rejected.
- Api.ApiServer.ScheduleService: which set-up step fails (building the scheduler, `schedule_interval` or `start`) is an input, and the error text is not derived. The scheduler is modelled only as its job and whether it was started; its internals are in decoy_service/scheduler.py.
- Api.StartResponse: the text of a construction failure is an input, not derived.
- `manage_config` (`/api/config`) is not modelled. It passes the untyped settings dict through, and settings here are a typed record.
- `health_check` and the 404 and 500 error handlers are not modelled. They are constant responses that read and change no state.
- decoy_service/scheduler.py, decoy_service/daemon_client.py, decoy_service/examples.py and decoy_service/__init__.py are not part of this model. Neither are the Firefox extension's JavaScript and build-xpi.py.
- `KeyboardInterrupt` during a session and `sys.exit` in the daemon are not modelled.
