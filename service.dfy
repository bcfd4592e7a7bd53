/** The session orchestrator of decoy_service/decoy_service.py: a
    `DecoyService` that owns one activity tracker for its whole life, creates
    a browser agent per session and runs the activity loop, one site visit or
    one search per iteration, until the session is stopped or expires.

    The clock is read in whole seconds: `now` parameters, and inside the loop
    a reading that never goes back. Random draws and driver outcomes are
    nondeterministic choices within their ranges. */
module Service {
  import opened Values
  import opened Config
  import opened Tracker
  import opened Randomness
  import opened Browser
  import opened Text

  /** `websites_config`: the entries of the websites file in file order, each
      a name and its list of strings. A `search_queries` entry, when present,
      is one of them. */
  type Catalogue = seq<(string, seq<string>)>

  /** Every entry's list, one after the other. */
  function AllUrls(catalogue: Catalogue): seq<string>
    decreases |catalogue|
  {
    if catalogue == [] then []
    else AllUrls(catalogue[..|catalogue| - 1]) + catalogue[|catalogue| - 1].1
  }

  /** The sum of the entries' list lengths. */
  function TotalLength(catalogue: Catalogue): nat
    decreases |catalogue|
  {
    if catalogue == [] then 0
    else TotalLength(catalogue[1..]) + |catalogue[0].1|
  }

  lemma {:induction false} TotalLengthSnoc(catalogue: Catalogue)
    requires catalogue != []
    ensures TotalLength(catalogue) == TotalLength(catalogue[..|catalogue| - 1]) + |catalogue[|catalogue| - 1].1|
    decreases |catalogue|
  {
    if |catalogue| > 1 {
      var init := catalogue[..|catalogue| - 1];
      assert catalogue[1..][..|catalogue[1..]| - 1] == init[1..];
      TotalLengthSnoc(catalogue[1..]);
    } else {
      assert catalogue[..0] == [];
    }
  }

  /** The flattened list is as long as all the lists together. */
  lemma {:induction false} AllUrlsLength(catalogue: Catalogue)
    ensures |AllUrls(catalogue)| == TotalLength(catalogue)
    decreases |catalogue|
  {
    if catalogue != [] {
      AllUrlsLength(catalogue[..|catalogue| - 1]);
      TotalLengthSnoc(catalogue);
    }
  }

  /** Every entry's strings are in the flattened list ... */
  lemma {:induction false} AllUrlsHoldsEveryList(catalogue: Catalogue, i: int, u: string)
    requires 0 <= i < |catalogue| && u in catalogue[i].1
    ensures u in AllUrls(catalogue)
    decreases |catalogue|
  {
    var init := catalogue[..|catalogue| - 1];
    if i < |catalogue| - 1 {
      assert init[i] == catalogue[i];
      AllUrlsHoldsEveryList(init, i, u);
    }
  }

  /** ... and nothing else is. */
  lemma {:induction false} AllUrlsFromLists(catalogue: Catalogue, u: string)
    requires u in AllUrls(catalogue)
    ensures exists i :: 0 <= i < |catalogue| && u in catalogue[i].1
    decreases |catalogue|
  {
    var init := catalogue[..|catalogue| - 1];
    if u !in catalogue[|catalogue| - 1].1 {
      AllUrlsFromLists(init, u);
      var i :| 0 <= i < |init| && u in init[i].1;
      assert catalogue[i] == init[i];
    }
  }

  /** `websites_config.get(key)`: the list of the entry named `key`. */
  function Lookup(catalogue: Catalogue, key: string): (r: Option<seq<string>>)
    ensures r.Some? ==>
      exists i :: 0 <= i < |catalogue| && catalogue[i] == (key, r.value) && forall j :: 0 <= j < i ==> catalogue[j].0 != key
    ensures r.None? <==> forall i :: 0 <= i < |catalogue| ==> catalogue[i].0 != key
    decreases |catalogue|
  {
    if catalogue == [] then None
    else if catalogue[0].0 == key then Some(catalogue[0].1)
    else
      var r := Lookup(catalogue[1..], key);
      assert forall i :: 1 <= i < |catalogue| ==> catalogue[i] == catalogue[1..][i - 1];
      r
  }

  /** `_flatten_website_list` walks every entry, `search_queries` included:
      a configured query is also picked as a website to visit. */
  lemma QueriesAreAlsoVisited(catalogue: Catalogue, q: string)
    requires Lookup(catalogue, "search_queries").Some?
    requires q in Lookup(catalogue, "search_queries").value
    ensures q in AllUrls(catalogue)
  {
    var i :| 0 <= i < |catalogue| && catalogue[i] == ("search_queries", Lookup(catalogue, "search_queries").value);
    AllUrlsHoldsEveryList(catalogue, i, q);
  }

  /** The engines `_perform_search` picks from. */
  const SearchEngines: seq<string> := ["https://www.google.com", "https://www.bing.com", "https://duckduckgo.com"]

  /** The engines are full URLs: `visit_url` goes to them as they are. */
  lemma EnginesAreNormalized(engine: string)
    requires engine in SearchEngines
    ensures NormalizeUrl(engine) == engine
  {
    assert StartsWith(SearchEngines[0], "http") && StartsWith(SearchEngines[1], "http") && StartsWith(SearchEngines[2], "http");
  }

  /** `_session_expired`, with `duration` the configured minutes and the
      clock in seconds: a duration of 0 never expires; otherwise the session
      has expired once the elapsed minutes, `elapsed_seconds / 60` as a real
      number, reach `duration`. */
  function SessionExpired(duration: int, start: int, now: int): (expired: bool)
    ensures expired <==> duration != 0 && (now - start) as real / 60.0 >= duration as real
  {
    duration != 0 && now - start >= 60 * duration
  }

  /** A positive duration expires at `60 * duration` seconds and not a
      second before; a negative one has expired from the start. */
  lemma ExpiryDeadline(duration: int, start: int)
    ensures duration > 0 ==> SessionExpired(duration, start, start + 60 * duration)
    ensures duration > 0 ==> !SessionExpired(duration, start, start + 60 * duration - 1)
    ensures duration < 0 ==> SessionExpired(duration, start, start)
  {
  }

  /** Once expired, a session stays expired as the clock moves on. */
  lemma ExpiryIsMonotone(duration: int, start: int, now: int, later: int)
    requires SessionExpired(duration, start, now) && now <= later
    ensures SessionExpired(duration, start, later)
  {
  }

  /** What one iteration of the activity loop chose to do. */
  datatype Activity = SiteVisit | WebSearch

  function CountOf(kinds: seq<Activity>, a: Activity): nat
    decreases |kinds|
  {
    if kinds == [] then 0
    else CountOf(kinds[..|kinds| - 1], a) + (if kinds[|kinds| - 1] == a then 1 else 0)
  }

  /** What the session loop keeps of the counters, from `s0` at its start
      to `s` after the passes `kinds`, with the loop started at `from` and
      now at `to`: no counter decreases, no form is filled, each pass adds
      at most one visit or search of its own kind, and `total_time_seconds`
      is untouched or was written by a stop inside that window. */
  predicate SessionCounts(s0: Stats, s: Stats, kinds: seq<Activity>, from: int, to: int)
  {
    && NoCounterDecreased(s0, s)
    && s.formsFilled == s0.formsFilled
    && s.websitesVisited <= s0.websitesVisited + CountOf(kinds, SiteVisit)
    && s.searchQueries <= s0.searchQueries + CountOf(kinds, WebSearch)
    && (s.totalTimeSeconds == s0.totalTimeSeconds || from - s.sessionStart <= s.totalTimeSeconds <= to - s.sessionStart)
  }

  /** One more pass of kind `kind` keeps `SessionCounts`. */
  lemma SessionCountsPass(s0: Stats, s1: Stats, s2: Stats, kinds: seq<Activity>, kind: Activity, from: int, to: int)
    requires SessionCounts(s0, s1, kinds, from, to)
    requires NoCounterDecreased(s1, s2) && s2.formsFilled == s1.formsFilled && s2.totalTimeSeconds == s1.totalTimeSeconds
    requires s2.websitesVisited <= s1.websitesVisited + (if kind == SiteVisit then 1 else 0)
    requires s2.searchQueries <= s1.searchQueries + (if kind == WebSearch then 1 else 0)
    ensures SessionCounts(s0, s2, kinds + [kind], from, to)
  {
    assert (kinds + [kind])[..|kinds|] == kinds;
  }

  /** Time passing, and a stop at the new time `to2`, keep `SessionCounts`. */
  lemma SessionCountsLater(s0: Stats, s1: Stats, s2: Stats, kinds: seq<Activity>, from: int, to: int, to2: int)
    requires SessionCounts(s0, s1, kinds, from, to) && from <= to <= to2
    requires s2 == s1 || s2 == s1.(totalTimeSeconds := to2 - s1.sessionStart)
    ensures SessionCounts(s0, s2, kinds, from, to2)
  {
  }

  /** Every pass of the session loop began, at `starts[i]`, inside the
      window from `from` to `to` and before the session had expired. */
  predicate StartedUnexpired(starts: seq<int>, duration: int, from: int, to: int)
  {
    forall i :: 0 <= i < |starts| ==> from <= starts[i] <= to && !SessionExpired(duration, from, starts[i])
  }

  /** The interaction style `_interact_with_page` draws. */
  datatype Style = DeepRead | QuickBrowse | MediaFocus

  /** How `start_session` ended. */
  datatype Ending =
    | AgentMissing   // create_agent raised (the engine's package is missing)
    | OpenFailed     // open_browser answered false
    | Failed         // an exception inside the loop
    | Stopped        // `running` was cleared by stop_session from another thread
    | Expired        // the session duration was reached
    | OutOfFuel      // the model's bound on iterations was reached

  /** The click accounting of an interaction: the agent's log only grew, and
      the click counter went from `c0` to `c1`, up by exactly the element
      clicks added to the log. */
  predicate ClicksTracked(before: seq<Action>, after: seq<Action>, c0: int, c1: int)
  {
    Appended(before, after) && c0 <= c1 && Clicks(after) == Clicks(before) + (c1 - c0)
  }

  lemma ClicksTrackedTrans(a: seq<Action>, b: seq<Action>, c: seq<Action>, x: int, y: int, z: int)
    requires ClicksTracked(a, b, x, y) && ClicksTracked(b, c, y, z)
    ensures ClicksTracked(a, c, x, z)
  {
    assert c[..|a|] == c[..|b|][..|a|];
  }

  lemma NoClicksAdded(before: seq<Action>, added: seq<Action>, c: int)
    requires Clicks(added) == 0
    ensures ClicksTracked(before, before + added, c, c)
  {
    ClicksAppend(before, added);
    assert (before + added)[..|before|] == before;
  }

  /** A snapshot of a service's mutable state: its session flags, its
      tracker's counters and its agent, if it has one. */
  datatype ServiceView = ServiceView(running: bool, startTime: Option<int>, stats: Stats, agent: Option<AgentView>)

  /** What `stop_session` leaves behind: no session running, the agent's
      browser closed (one more `close_browser` call, nothing else sent to the
      page), the counters as they were and the session's total time
      written. */
  function AfterStop(v: ServiceView, now: int): (w: ServiceView)
    ensures !w.running && w.startTime == v.startTime
    ensures w.agent.Some? <==> v.agent.Some?
    ensures w.agent.Some? ==> !w.agent.value.isOpen && w.agent.value.closeCalls == v.agent.value.closeCalls + 1
    ensures w.agent.Some? ==> w.agent.value.actions == v.agent.value.actions && w.agent.value.page == v.agent.value.page
    ensures w.agent.Some? ==> w.agent.value == Close(v.agent.value, None).1
    ensures NoCounterDecreased(v.stats, w.stats) && NoCounterDecreased(w.stats, v.stats)
    ensures w.stats.totalTimeSeconds == now - v.stats.sessionStart
  {
    var closed := if v.agent.None? then None else Some(v.agent.value.(isOpen := false, closeCalls := v.agent.value.closeCalls + 1));
    ServiceView(false, v.startTime, v.stats.(totalTimeSeconds := now - v.stats.sessionStart), closed)
  }

  /** `stop_session` raises exactly when the agent's `close_browser` does. */
  predicate StopRaises(v: ServiceView, closing: Option<string>)
  {
    v.agent.Some? && CloseRaises(v.agent.value, closing)
  }

  /** `stop_session` on a service in state `v`, when the engine's `quit`
      would raise `closing`: the error that escapes, if any, and the new
      state. `running` is cleared first; an error from `close_browser` then
      leaves before `print_summary`, so the counters, `total_time_seconds`
      included, are as they were. */
  function Stop(v: ServiceView, now: int, closing: Option<string>): (out: (Option<string>, ServiceView))
    ensures !out.1.running && out.1.startTime == v.startTime
    ensures out.0.Some? <==> StopRaises(v, closing)
    ensures out.0.None? ==> out.1 == AfterStop(v, now)
    ensures out.0.Some? ==> out.0 == closing && out.1.stats == v.stats
    ensures out.0.Some? ==> out.1.agent == Some(Close(v.agent.value, closing).1)
  {
    if StopRaises(v, closing) then (closing, v.(running := false, agent := Some(Close(v.agent.value, closing).1)))
    else (None, AfterStop(v, now))
  }

  /** A second stop, at `later`, still raises whenever `quit` does on a
      Selenium agent that had a driver, as the first one could. After a
      first stop that went through, the second one adds one more
      `close_browser` call and, when it goes through too, writes
      `total_time_seconds` again for its own time; nothing else changes. */
  lemma StopTwice(v: ServiceView, now: int, later: int, first: Option<string>, second: Option<string>)
    ensures var once := Stop(v, now, first);
      var twice := Stop(once.1, later, second);
      && (twice.0.Some? <==> StopRaises(v, second))
      && (once.0.None? && twice.0.None? ==>
            twice.1.(agent := None)
              == once.1.(agent := None, stats := once.1.stats.(totalTimeSeconds := later - v.stats.sessionStart)))
      && (once.0.None? && twice.0.Some? ==> twice.1.(agent := None) == once.1.(agent := None))
      && (once.0.None? && twice.1.agent.Some? ==>
            twice.1.agent.value == once.1.agent.value.(closeCalls := once.1.agent.value.closeCalls + 1))
  {
  }

  /** `get_status`: the tracker's counters under the extension's names,
      and the session's age in whole minutes. */
  function StatusOf(stats: Stats, now: int): (r: Value)
    ensures r.Dict? && r.entries.Keys == {"stats"} && r.entries["stats"].Dict?
    ensures r.entries["stats"].entries.Keys == {"sitesVisited", "clicksMade", "searchesPerformed", "sessionDurationMinutes"}
    ensures r.entries["stats"].entries["sitesVisited"] == Int(stats.websitesVisited)
    ensures r.entries["stats"].entries["clicksMade"] == Int(stats.clicksMade)
    ensures r.entries["stats"].entries["searchesPerformed"] == Int(stats.searchQueries)
    ensures r.entries["stats"].entries["sessionDurationMinutes"].Int?
    ensures var minutes := r.entries["stats"].entries["sessionDurationMinutes"].i;
      60 * minutes <= now - stats.sessionStart < 60 * (minutes + 1)
  {
    Dict(map["stats" := Dict(map[
      "sitesVisited" := Int(stats.websitesVisited),
      "clicksMade" := Int(stats.clicksMade),
      "searchesPerformed" := Int(stats.searchQueries),
      "sessionDurationMinutes" := Int((now - stats.sessionStart) / 60)])])
  }

  class DecoyService {
    const settings: Settings
    const websitesConfig: Catalogue
    /** Created once, with the service: its counters run on across sessions. */
    const tracker: ActivityTracker
    var agent: BrowserAgent?
    var running: bool
    var startTime: Option<int>

    function View(): ServiceView
      reads this, tracker, agent
    {
      ServiceView(running, startTime, tracker.stats, if agent == null then None else Some(agent.View()))
    }

    /** `__init__`, given the loaded settings and websites. */
    constructor(settings: Settings, websitesConfig: Catalogue, now: int)
      ensures this.settings == settings && this.websitesConfig == websitesConfig
      ensures fresh(tracker) && tracker.stats == Stats(0, 0, 0, 0, now, 0)
      ensures agent == null && !running && startTime == None
    {
      this.settings := settings;
      this.websitesConfig := websitesConfig;
      tracker := new ActivityTracker(now);
      agent := null;
      running := false;
      startTime := None;
    }

    /** `_flatten_website_list`: every entry's list, in order. */
    method FlattenWebsiteList() returns (websites: seq<string>)
      ensures websites == AllUrls(websitesConfig)
      ensures |websites| == TotalLength(websitesConfig)
    {
      websites := [];
      for i := 0 to |websitesConfig|
        invariant websites == AllUrls(websitesConfig[..i])
      {
        assert websitesConfig[..i + 1][..i] == websitesConfig[..i];
        websites := websites + websitesConfig[i].1;
      }
      assert websitesConfig[..|websitesConfig|] == websitesConfig;
      AllUrlsLength(websitesConfig);
    }

    /** `_get_search_queries`: the list of the `search_queries` entry, or
        none when there is no such entry. */
    function SearchQueries(): (r: seq<string>)
      ensures (forall i :: 0 <= i < |websitesConfig| ==> websitesConfig[i].0 != "search_queries") ==> r == []
      ensures (exists i :: 0 <= i < |websitesConfig| && websitesConfig[i].0 == "search_queries") ==>
        exists i :: 0 <= i < |websitesConfig| && websitesConfig[i] == ("search_queries", r)
    {
      match Lookup(websitesConfig, "search_queries")
      case None => []
      case Some(queries) => queries
    }

    /** `_get_random_website`: a member of the flattened list; on an empty
        list `random.choice` raises IndexError (None). */
    method GetRandomWebsite() returns (r: Option<string>)
      ensures r.None? <==> AllUrls(websitesConfig) == []
      ensures r.Some? ==> r.value in AllUrls(websitesConfig)
    {
      var websites := FlattenWebsiteList();
      r := GetRandomElement(websites);
    }

    /** `_get_random_query`: "random topic" when no query is configured,
        otherwise one of the configured queries. */
    method GetRandomQuery() returns (q: string)
      ensures SearchQueries() == [] ==> q == "random topic"
      ensures SearchQueries() != [] ==> q in SearchQueries()
    {
      var queries := SearchQueries();
      if queries == [] {
        return "random topic";
      }
      var choice := GetRandomElement(queries);
      q := choice.value;
    }

    /** `for _ in range(n)`: click at random, recording the clicks that
        went through. */
    method ClickTimes(n: int)
      requires agent != null
      modifies agent, tracker
      ensures tracker.stats == old(tracker.stats).(clicksMade := tracker.stats.clicksMade)
      ensures ClicksTracked(old(agent.actions), agent.actions, old(tracker.stats.clicksMade), tracker.stats.clicksMade)
      ensures tracker.stats.clicksMade <= old(tracker.stats.clicksMade) + (if n > 0 then n else 0)
      ensures agent.isOpen == old(agent.isOpen) && agent.closeCalls == old(agent.closeCalls)
    {
      ghost var base := agent.actions;
      ghost var c0 := tracker.stats.clicksMade;
      assert base[..|base|] == base;
      for k := 0 to (if n > 0 then n else 0)
        invariant tracker.stats == old(tracker.stats).(clicksMade := tracker.stats.clicksMade)
        invariant tracker.stats.clicksMade <= c0 + k
        invariant ClicksTracked(base, agent.actions, c0, tracker.stats.clicksMade)
        invariant agent.isOpen == old(agent.isOpen) && agent.closeCalls == old(agent.closeCalls)
      {
        ghost var before := agent.actions;
        ghost var cBefore := tracker.stats.clicksMade;
        var clicked := agent.RandomClick();
        if clicked {
          tracker.RecordClick();
        }
        assert agent.actions[..|before|] == before;
        ClicksTrackedTrans(base, before, agent.actions, c0, cBefore, tracker.stats.clicksMade);
      }
    }

    /** `scroll_page(amount)` inside an interaction: nothing is recorded. */
    method Scroll(amount: int)
      requires agent != null
      modifies agent
      ensures ClicksTracked(old(agent.actions), agent.actions, tracker.stats.clicksMade, tracker.stats.clicksMade)
      ensures agent.isOpen == old(agent.isOpen) && agent.closeCalls == old(agent.closeCalls)
    {
      agent.ScrollPage(amount);
      assert [ScrollBy(amount)][..0] == [];
      assert agent.actions == old(agent.actions) + [] || agent.actions == old(agent.actions) + [ScrollBy(amount)];
      if agent.actions == old(agent.actions) + [] {
        NoClicksAdded(old(agent.actions), [], tracker.stats.clicksMade);
      } else {
        NoClicksAdded(old(agent.actions), [ScrollBy(amount)], tracker.stats.clicksMade);
      }
    }

    /** The popup check that opens `_interact_with_page`: it clicks at most
        a close button, never an element, so no click is recorded. */
    method DismissPopups()
      requires agent != null
      modifies agent
      ensures ClicksTracked(old(agent.actions), agent.actions, tracker.stats.clicksMade, tracker.stats.clicksMade)
      ensures agent.isOpen == old(agent.isOpen) && agent.closeCalls == old(agent.closeCalls)
    {
      ghost var base := agent.actions;
      var closed := agent.HandlePopups();
      if closed {
        assert [agent.actions[|base|]][..0] == [];
        assert agent.actions == base + [agent.actions[|base|]];
        NoClicksAdded(base, [agent.actions[|base|]], tracker.stats.clicksMade);
      } else {
        NoClicksAdded(base, [], tracker.stats.clicksMade);
      }
    }

    /** The reading style: scroll through the article (when scrolling is
        enabled), then click once or twice. */
    method ReadDeeply(fuel: nat)
      requires agent != null
      modifies agent, tracker
      ensures tracker.stats == old(tracker.stats).(clicksMade := tracker.stats.clicksMade)
      ensures ClicksTracked(old(agent.actions), agent.actions, old(tracker.stats.clicksMade), tracker.stats.clicksMade)
      ensures tracker.stats.clicksMade <= old(tracker.stats.clicksMade) + 2
      ensures agent.isOpen == old(agent.isOpen) && agent.closeCalls == old(agent.closeCalls)
    {
      ghost var base := agent.actions;
      ghost var c0 := tracker.stats.clicksMade;
      if settings.enableScrolling {
        var scrolled, steps, logged := agent.NaturalScroll(fuel);
        NoClicksAdded(base, logged, c0);
      } else {
        NoClicksAdded(base, [], c0);
      }
      ghost var scrolledTo := agent.actions;
      var numClicks :| 1 <= numClicks <= 2;
      ClickTimes(numClicks);
      ClicksTrackedTrans(base, scrolledTo, agent.actions, c0, c0, tracker.stats.clicksMade);
    }

    /** The media style: only a scroll (when scrolling is enabled). */
    method LookAtMedia()
      requires agent != null
      modifies agent
      ensures ClicksTracked(old(agent.actions), agent.actions, tracker.stats.clicksMade, tracker.stats.clicksMade)
      ensures agent.isOpen == old(agent.isOpen) && agent.closeCalls == old(agent.closeCalls)
    {
      if settings.enableScrolling {
        var amount :| 300 <= amount <= 600;
        Scroll(amount);
      } else {
        NoClicksAdded(agent.actions, [], tracker.stats.clicksMade);
      }
    }

    /** The browsing style: `random.randint(min, max)` clicks, then a scroll
        (when scrolling is enabled). `randint` raises ValueError when
        `clicks_per_page_min` exceeds `clicks_per_page_max`. */
    method BrowseQuickly() returns (raised: bool)
      requires agent != null
      modifies agent, tracker
      ensures tracker.stats == old(tracker.stats).(clicksMade := tracker.stats.clicksMade)
      ensures ClicksTracked(old(agent.actions), agent.actions, old(tracker.stats.clicksMade), tracker.stats.clicksMade)
      ensures tracker.stats.clicksMade
        <= old(tracker.stats.clicksMade) + (if settings.clicksPerPageMax > 0 then settings.clicksPerPageMax else 0)
      ensures raised <==> settings.clicksPerPageMin > settings.clicksPerPageMax
      ensures raised ==> agent.actions == old(agent.actions) && tracker.stats == old(tracker.stats)
      ensures agent.isOpen == old(agent.isOpen) && agent.closeCalls == old(agent.closeCalls)
    {
      if settings.clicksPerPageMin > settings.clicksPerPageMax {
        NoClicksAdded(agent.actions, [], tracker.stats.clicksMade);
        return true;
      }
      ghost var base := agent.actions;
      ghost var c0 := tracker.stats.clicksMade;
      var numClicks :| settings.clicksPerPageMin <= numClicks <= settings.clicksPerPageMax;
      ClickTimes(numClicks);
      ghost var clickedTo := agent.actions;
      if settings.enableScrolling {
        var amount :| 300 <= amount <= 1000;
        Scroll(amount);
      } else {
        NoClicksAdded(clickedTo, [], tracker.stats.clicksMade);
      }
      ClicksTrackedTrans(base, clickedTo, agent.actions, c0, tracker.stats.clicksMade, tracker.stats.clicksMade);
      raised := false;
    }

    /** `_interact_with_page`: close a popup, then one of three styles. Only
        the clicks the agent reports as done are recorded, so `clicks_made`
        rises by exactly the number of element clicks sent to the page: at
        most 2 when reading, at most `clicks_per_page_max` when browsing,
        none when looking at media. */
    method InteractWithPage(fuel: nat) returns (raised: bool, ghost style: Style)
      requires agent != null
      modifies agent, tracker
      ensures tracker.stats == old(tracker.stats).(clicksMade := tracker.stats.clicksMade)
      ensures ClicksTracked(old(agent.actions), agent.actions, old(tracker.stats.clicksMade), tracker.stats.clicksMade)
      ensures style == DeepRead ==> tracker.stats.clicksMade <= old(tracker.stats.clicksMade) + 2
      ensures style == QuickBrowse ==>
        tracker.stats.clicksMade <= old(tracker.stats.clicksMade) + (if settings.clicksPerPageMax > 0 then settings.clicksPerPageMax else 0)
      ensures style == MediaFocus ==> tracker.stats == old(tracker.stats)
      ensures raised <==> style == QuickBrowse && settings.clicksPerPageMin > settings.clicksPerPageMax
      ensures agent.isOpen == old(agent.isOpen) && agent.closeCalls == old(agent.closeCalls)
    {
      ghost var base := agent.actions;
      ghost var c0 := tracker.stats.clicksMade;
      DismissPopups();
      ghost var popped := agent.actions;
      raised := false;
      var drawn: Style :| true;
      style := drawn;
      match drawn
      case DeepRead =>
        ReadDeeply(fuel);
      case MediaFocus =>
        LookAtMedia();
      case QuickBrowse =>
        raised := BrowseQuickly();
      ClicksTrackedTrans(base, popped, agent.actions, c0, c0, tracker.stats.clicksMade);
    }

    /** `_visit_and_interact`: pick a website and go there. Only a visit
        that went through is recorded, and only then is the page interacted
        with. With no website configured `random.choice` raises IndexError
        (`raised`); the interaction may raise as well. */
    method VisitAndInteract(fuel: nat) returns (raised: bool, ghost visited: bool, ghost site: string)
      requires agent != null
      modifies agent, tracker
      ensures tracker.stats == old(tracker.stats).(websitesVisited := tracker.stats.websitesVisited, clicksMade := tracker.stats.clicksMade)
      ensures tracker.stats.websitesVisited == old(tracker.stats.websitesVisited) + (if visited then 1 else 0)
      ensures visited ==> old(agent.isOpen) && site in AllUrls(websitesConfig)
      ensures visited ==> |old(agent.actions)| < |agent.actions| && agent.actions[|old(agent.actions)|] == Navigate(NormalizeUrl(site))
      ensures !visited ==> agent.actions == old(agent.actions) && tracker.stats == old(tracker.stats)
      ensures ClicksTracked(old(agent.actions), agent.actions, old(tracker.stats.clicksMade), tracker.stats.clicksMade)
      ensures AllUrls(websitesConfig) == [] ==> raised && !visited
      ensures raised && AllUrls(websitesConfig) != [] ==> visited && settings.clicksPerPageMin > settings.clicksPerPageMax
      ensures agent.isOpen == old(agent.isOpen) && agent.closeCalls == old(agent.closeCalls)
    {
      ghost var base := agent.actions;
      ghost var c0 := tracker.stats.clicksMade;
      NoClicksAdded(base, [], c0);
      assert base + [] == base;
      var choice := GetRandomWebsite();
      if choice.None? {
        return true, false, "";
      }
      var url := choice.value;
      site := url;
      var ok := agent.VisitUrl(url);
      if !ok {
        return false, false, site;
      }
      visited := true;
      tracker.RecordWebsiteVisit(url);
      assert [Navigate(NormalizeUrl(site))][..0] == [];
      NoClicksAdded(base, [Navigate(NormalizeUrl(site))], c0);
      ghost var landed := agent.actions;
      ghost var style;
      raised, style := InteractWithPage(fuel);
      ClicksTrackedTrans(base, landed, agent.actions, c0, c0, tracker.stats.clicksMade);
      assert agent.actions[|base|] == agent.actions[..|landed|][|base|];
    }

    /** The first half of `_perform_search`: open `engine` and submit
        `query` in its search form, recording the search only when both
        went through. Nothing is clicked. On a Playwright agent the form
        call raises (`raised`). */
    method SubmitQuery(engine: string, query: string) returns (searched: bool, raised: bool)
      requires agent != null && engine in SearchEngines
      modifies agent, tracker
      ensures tracker.stats == old(tracker.stats).(searchQueries := old(tracker.stats.searchQueries) + (if searched then 1 else 0))
      ensures searched ==> old(agent.isOpen) && agent.backend == Selenium
      ensures searched ==>
        && |agent.actions| == |old(agent.actions)| + 2
        && agent.actions[|old(agent.actions)|] == Navigate(engine)
        && agent.actions[|old(agent.actions)| + 1].SubmitSearch? && agent.actions[|old(agent.actions)| + 1].query == query
      ensures ClicksTracked(old(agent.actions), agent.actions, tracker.stats.clicksMade, tracker.stats.clicksMade)
      ensures raised ==> agent.backend == Playwright && !searched
      ensures agent.isOpen == old(agent.isOpen) && agent.closeCalls == old(agent.closeCalls)
    {
      ghost var base := agent.actions;
      ghost var c0 := tracker.stats.clicksMade;
      EnginesAreNormalized(engine);
      var loaded := agent.VisitUrl(engine);
      if !loaded {
        NoClicksAdded(base, [], c0);
        assert base + [] == base;
        return false, false;
      }
      var submitted, missing := agent.FillSearchForm(query);
      var added := agent.actions[|base|..];
      assert agent.actions == base + added;
      assert added[..0] == [] && added[..1] == [added[0]];
      if !submitted {
        assert added == [Navigate(engine)];
        NoClicksAdded(base, added, c0);
        return false, missing;
      }
      tracker.RecordSearch(query);
      assert added == [Navigate(engine), added[1]];
      assert added[..1] == [Navigate(engine)] && added[..|added| - 1] == added[..1];
      assert added[..1][..0] == [];
      assert Clicks(added[..1]) == 0;
      NoClicksAdded(base, added, c0);
      return true, false;
    }

    /** `_perform_search`: open a search engine and submit a query there.
        Only a search whose engine loaded and whose form was submitted is
        recorded, and a search is never counted as a website visit. On a
        Playwright agent the form call raises (`raised`). */
    method PerformSearch(fuel: nat) returns (raised: bool, ghost searched: bool, ghost query: string)
      requires agent != null
      modifies agent, tracker
      ensures tracker.stats == old(tracker.stats).(searchQueries := tracker.stats.searchQueries, clicksMade := tracker.stats.clicksMade)
      ensures tracker.stats.searchQueries == old(tracker.stats.searchQueries) + (if searched then 1 else 0)
      ensures searched ==> old(agent.isOpen) && agent.backend == Selenium
      ensures searched ==> |old(agent.actions)| + 2 <= |agent.actions|
      ensures searched ==> agent.actions[|old(agent.actions)|].Navigate? && agent.actions[|old(agent.actions)|].url in SearchEngines
      ensures searched ==> agent.actions[|old(agent.actions)| + 1].SubmitSearch? && agent.actions[|old(agent.actions)| + 1].query == query
      ensures searched ==> if SearchQueries() == [] then query == "random topic" else query in SearchQueries()
      ensures !searched ==> tracker.stats == old(tracker.stats)
      ensures ClicksTracked(old(agent.actions), agent.actions, old(tracker.stats.clicksMade), tracker.stats.clicksMade)
      ensures raised ==> agent.backend == Playwright || (searched && settings.clicksPerPageMin > settings.clicksPerPageMax)
      ensures agent.isOpen == old(agent.isOpen) && agent.closeCalls == old(agent.closeCalls)
    {
      ghost var base := agent.actions;
      ghost var c0 := tracker.stats.clicksMade;
      var engineChoice := GetRandomElement(SearchEngines);
      var engine := engineChoice.value;
      var q := GetRandomQuery();
      query := q;
      var submitted, missing := SubmitQuery(engine, q);
      searched := submitted;
      if !submitted {
        return missing, false, query;
      }
      ghost var submittedTo := agent.actions;
      ghost var style;
      raised, style := InteractWithPage(fuel);
      ClicksTrackedTrans(base, submittedTo, agent.actions, c0, c0, tracker.stats.clicksMade);
      assert agent.actions[|base|] == agent.actions[..|submittedTo|][|base|];
      assert agent.actions[|base| + 1] == agent.actions[..|submittedTo|][|base| + 1];
    }

    /** The only ways a pass of kind `kind` can raise: a visit with no
        sites, quick browsing with `clicks_per_page_min > clicks_per_page_max`,
        or a search on Playwright, which has no `fill_search_form`. */
    ghost predicate MayRaise(kind: Activity)
      reads this, agent
    {
      || settings.clicksPerPageMin > settings.clicksPerPageMax
      || (kind == SiteVisit && AllUrls(websitesConfig) == [])
      || (kind == WebSearch && agent != null && agent.backend == Playwright)
    }

    /** One iteration of the activity loop: a site visit or a search,
        counted at most once under its own counter. It raises only as
        `MayRaise` allows, and always for a visit with no sites. */
    method DoActivity(fuel: nat) returns (raised: bool, ghost kind: Activity)
      requires agent != null
      modifies agent, tracker
      ensures raised ==> MayRaise(kind)
      ensures kind == SiteVisit && AllUrls(websitesConfig) == [] ==> raised
      ensures tracker.stats.formsFilled == old(tracker.stats.formsFilled)
      ensures tracker.stats.totalTimeSeconds == old(tracker.stats.totalTimeSeconds)
      ensures tracker.stats.sessionStart == old(tracker.stats.sessionStart)
      ensures old(tracker.stats.websitesVisited) <= tracker.stats.websitesVisited
        <= old(tracker.stats.websitesVisited) + (if kind == SiteVisit then 1 else 0)
      ensures old(tracker.stats.searchQueries) <= tracker.stats.searchQueries
        <= old(tracker.stats.searchQueries) + (if kind == WebSearch then 1 else 0)
      ensures ClicksTracked(old(agent.actions), agent.actions, old(tracker.stats.clicksMade), tracker.stats.clicksMade)
    {
      var visit: bool :| true;
      if visit {
        kind := SiteVisit;
        ghost var visited, site;
        raised, visited, site := VisitAndInteract(fuel);
      } else {
        kind := WebSearch;
        ghost var searched, query;
        raised, searched, query := PerformSearch(fuel);
      }
    }

    /** `stop_session`: clear `running`, close the agent if there is one, and
        print the tracker's summary, which writes `total_time_seconds`.
        `start_time` is left as it was. The error `close_browser` raises, if
        any, escapes (`error`), and the summary is then not printed. */
    method StopSession(now: int) returns (error: Option<string>)
      modifies this, tracker, agent
      ensures (error, View()) == Stop(old(View()), now, error)
      ensures !running && agent == old(agent) && startTime == old(startTime)
      ensures agent != null ==> agent.closeCalls == old(agent.closeCalls) + 1 && (error.None? ==> !agent.isOpen)
      ensures agent != null ==> agent.actions == old(agent.actions) && agent.hasDriver == old(agent.hasDriver)
      ensures error.None? ==> tracker.stats == old(tracker.stats).(totalTimeSeconds := now - old(tracker.stats.sessionStart))
      ensures error.Some? ==> tracker.stats == old(tracker.stats) && agent != null && agent.backend == Selenium && agent.hasDriver
    {
      running := false;
      error := None;
      if agent != null {
        error := agent.CloseBrowser();
      }
      if error.None? {
        var summary := tracker.GetSummary(now);
      }
    }

    /** The `while self.running` loop of `start_session`, from the session's
        start at `now`: one activity per iteration until a `stop_session`
        from another thread clears `running`, the session expires, the
        activity raises (`Failed`, leaving `running` set for the `finally`)
        or the iterations run out. `clock` is when the loop ended. */
    method RunActivities(now: int, fuel: nat)
      returns (failed: bool, clock: int, ghost ending: Ending, ghost kinds: seq<Activity>, ghost starts: seq<int>)
      requires agent != null
      modifies this, tracker, agent
      ensures failed <==> ending == Failed
      ensures ending == Stopped ==> !running && (|kinds| >= 1 || !old(running))
      ensures ending == Failed ==> |kinds| >= 1 && MayRaise(kinds[|kinds| - 1])
      ensures AllUrls(websitesConfig) == [] ==> SiteVisit !in (if ending == Failed then kinds[..|kinds| - 1] else kinds)
      ensures |starts| == |kinds| && StartedUnexpired(starts, settings.sessionDuration, now, clock)
      ensures agent == old(agent) && startTime == old(startTime)
      ensures ending == Failed || ending == Stopped || ending == Expired || ending == OutOfFuel
      ensures ending == Expired ==> SessionExpired(settings.sessionDuration, now, clock)
      ensures |kinds| <= fuel && (ending == OutOfFuel ==> |kinds| == fuel)
      ensures now <= clock
      ensures SessionCounts(old(tracker.stats), tracker.stats, kinds, now, clock)
      ensures ClicksTracked(old(agent.actions), agent.actions, old(tracker.stats.clicksMade), tracker.stats.clicksMade)
    {
      var activityCount := 0;
      clock := now;
      failed := false;
      ending := Stopped;
      kinds := [];
      starts := [];
      ghost var a0, c0 := agent.actions, tracker.stats.clicksMade;
      assert a0[..|a0|] == a0;
      while running
        invariant agent == old(agent) && startTime == old(startTime)
        invariant ending == Stopped && !failed
        invariant activityCount == |kinds| <= fuel
        invariant kinds == [] ==> running == old(running)
        invariant AllUrls(websitesConfig) == [] ==> SiteVisit !in kinds
        invariant |starts| == |kinds| && StartedUnexpired(starts, settings.sessionDuration, now, clock)
        invariant now <= clock
        invariant SessionCounts(old(tracker.stats), tracker.stats, kinds, now, clock)
        invariant ClicksTracked(a0, agent.actions, c0, tracker.stats.clicksMade)
        decreases fuel - activityCount
      {
        if activityCount == fuel {
          ending := OutOfFuel;
          break;
        }
        if SessionExpired(settings.sessionDuration, now, clock) {
          ending := Expired;
          break;
        }
        ghost var acts := agent.actions;
        ghost var before := tracker.stats;
        var raised, kind := DoActivity(fuel);
        SessionCountsPass(old(tracker.stats), before, tracker.stats, kinds, kind, now, clock);
        ClicksTrackedTrans(a0, acts, agent.actions, c0, before.clicksMade, tracker.stats.clicksMade);
        kinds := kinds + [kind];
        starts := starts + [clock];
        if raised {
          return true, clock, Failed, kinds, starts;
        }
        activityCount := activityCount + 1;
        var later :| later >= clock;
        ghost var passed := tracker.stats;
        var stopRequested: bool :| true;
        if stopRequested {
          // a `stop_session` from another thread; what it raises is that
          // thread's error
          var elsewhere := StopSession(later);
        }
        SessionCountsLater(old(tracker.stats), passed, tracker.stats, kinds, now, clock, later);
        clock := later;
      }
    }

    /** `start_session(duration_minutes)`: the argument is not used; the
        duration comes from the settings. A fresh agent is created and its
        browser opened; the loop then does one site visit (or one search) per
        iteration, counting each, until `running` is cleared, the session
        expires, or an exception ends it. Whichever way it ends,
        `stop_session` runs (`finally`), so nothing is left running and the
        agent's browser is closed, unless closing it raises: that error
        (`stopError`) then leaves `start_session` in place of its answer. */
    method StartSession(durationMinutes: int, now: int, fuel: nat)
      returns (ok: bool, stopError: Option<string>, ghost ending: Ending, ghost kinds: seq<Activity>,
               ghost starts: seq<int>, ghost finish: int)
      modifies this, tracker, agent
      ensures !running && (agent != null && stopError.None? ==> !agent.isOpen)
      ensures stopError.Some? ==> agent != null && agent.backend == Selenium && agent.hasDriver
      ensures ok <==> stopError.None? && (ending == Stopped || ending == Expired || ending == OutOfFuel)
      ensures ending == AgentMissing ==> agent == old(agent) && startTime == old(startTime) && kinds == []
      ensures ending == OpenFailed ==>
        agent != null && fresh(agent) && agent.closeCalls == 1 && startTime == old(startTime) && kinds == []
        && stopError.None?
      ensures ending != AgentMissing && ending != OpenFailed ==>
        agent != null && fresh(agent) && agent.backend == SelectBackend(settings.browserType) && startTime == Some(now)
      ensures ending == Expired ==> SessionExpired(settings.sessionDuration, now, finish)
      ensures settings.sessionDuration == 0 ==> ending != Expired
      ensures ending == Stopped ==> |kinds| >= 1
      ensures ending == Failed ==> |kinds| >= 1 && MayRaise(kinds[|kinds| - 1])
      ensures AllUrls(websitesConfig) == [] ==> SiteVisit !in (if ending == Failed then kinds[..|kinds| - 1] else kinds)
      ensures |starts| == |kinds| && StartedUnexpired(starts, settings.sessionDuration, now, finish)
      ensures |kinds| <= fuel && (ending == OutOfFuel ==> |kinds| == fuel)
      ensures now <= finish
      ensures NoCounterDecreased(old(tracker.stats), tracker.stats)
      ensures tracker.stats.formsFilled == old(tracker.stats.formsFilled)
      ensures tracker.stats.websitesVisited <= old(tracker.stats.websitesVisited) + CountOf(kinds, SiteVisit)
      ensures tracker.stats.searchQueries <= old(tracker.stats.searchQueries) + CountOf(kinds, WebSearch)
      ensures ending != AgentMissing ==> tracker.stats.clicksMade == old(tracker.stats.clicksMade) + Clicks(agent.actions)
      ensures ending == AgentMissing ==> tracker.stats.clicksMade == old(tracker.stats.clicksMade)
      ensures tracker.stats.sessionStart == old(tracker.stats.sessionStart)
      ensures stopError.None? ==> tracker.stats.totalTimeSeconds == finish - tracker.stats.sessionStart
      ensures stopError.Some? ==>
        || tracker.stats.totalTimeSeconds == old(tracker.stats.totalTimeSeconds)
        || now - tracker.stats.sessionStart <= tracker.stats.totalTimeSeconds <= finish - tracker.stats.sessionStart
    {
      kinds := [];
      starts := [];
      finish := now;
      var created := CreateAgent(settings);
      if created == null {
        stopError := StopSession(now);
        return false, stopError, AgentMissing, kinds, starts, finish;
      }
      agent := created;
      var browserUp := created.OpenBrowser(settings.headless);
      if !browserUp {
        stopError := StopSession(now);
        return false, stopError, OpenFailed, kinds, starts, finish;
      }
      running := true;
      startTime := Some(now);
      var failed, clock;
      failed, clock, ending, kinds, starts := RunActivities(now, fuel);
      stopError := StopSession(clock);
      finish := clock;
      ok := stopError.None? && !failed;
    }
  }
}
