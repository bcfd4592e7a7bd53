/** The activity tracker of decoy_service/utils.py: a record of counters that
    each `record_*` call bumps by one, and the summary built from them. */
module Tracker {
  import opened Values

  /** `self.stats`. The clock is read in whole seconds. */
  datatype Stats = Stats(
    websitesVisited: nat,
    clicksMade: nat,
    formsFilled: nat,
    searchQueries: nat,
    sessionStart: int,
    totalTimeSeconds: int)

  /** The four kinds of activity a tracker counts. */
  datatype Event = Visit | Click | Search | FormFill

  /** The counter that counts `e`. */
  function Counter(s: Stats, e: Event): nat
  {
    match e
    case Visit => s.websitesVisited
    case Click => s.clicksMade
    case Search => s.searchQueries
    case FormFill => s.formsFilled
  }

  /** The stats after recording one event: its own counter goes up by one,
      nothing else changes. */
  function Record(s: Stats, e: Event): (r: Stats)
    ensures forall f :: Counter(r, f) == Counter(s, f) + (if f == e then 1 else 0)
    ensures r.sessionStart == s.sessionStart && r.totalTimeSeconds == s.totalTimeSeconds
    ensures NoCounterDecreased(s, r) && r != s
  {
    match e
    case Visit => s.(websitesVisited := s.websitesVisited + 1)
    case Click => s.(clicksMade := s.clicksMade + 1)
    case Search => s.(searchQueries := s.searchQueries + 1)
    case FormFill => s.(formsFilled := s.formsFilled + 1)
  }

  /** The stats after recording `events` in order. */
  function RecordAll(s: Stats, events: seq<Event>): Stats
    decreases |events|
  {
    if events == [] then s else RecordAll(Record(s, events[0]), events[1..])
  }

  /** How many of `events` are `e`. */
  function Occurrences(events: seq<Event>, e: Event): nat
    decreases |events|
  {
    if events == [] then 0
    else (if events[0] == e then 1 else 0) + Occurrences(events[1..], e)
  }

  /** No counter of `after` is below the same counter of `before`, and the
      session start is the same. */
  predicate NoCounterDecreased(before: Stats, after: Stats)
  {
    && before.websitesVisited <= after.websitesVisited
    && before.clicksMade <= after.clicksMade
    && before.formsFilled <= after.formsFilled
    && before.searchQueries <= after.searchQueries
    && before.sessionStart == after.sessionStart
  }

  /** Each counter ends up raised by exactly the number of its events, so no
      counter ever goes down. */
  lemma {:induction false} RecordAllCounts(s: Stats, events: seq<Event>)
    ensures RecordAll(s, events).websitesVisited == s.websitesVisited + Occurrences(events, Visit)
    ensures RecordAll(s, events).clicksMade == s.clicksMade + Occurrences(events, Click)
    ensures RecordAll(s, events).searchQueries == s.searchQueries + Occurrences(events, Search)
    ensures RecordAll(s, events).formsFilled == s.formsFilled + Occurrences(events, FormFill)
    ensures RecordAll(s, events).sessionStart == s.sessionStart
    ensures RecordAll(s, events).totalTimeSeconds == s.totalTimeSeconds
    ensures NoCounterDecreased(s, RecordAll(s, events))
    decreases |events|
  {
    if events != [] {
      RecordAllCounts(Record(s, events[0]), events[1..]);
    }
  }

  /** Recording `a` and then `b` is recording `a + b`. */
  lemma {:induction false} RecordAllAppend(s: Stats, a: seq<Event>, b: seq<Event>)
    ensures RecordAll(RecordAll(s, a), b) == RecordAll(s, a + b)
    decreases |a|
  {
    if a != [] {
      assert (a + b)[0] == a[0] && (a + b)[1..] == a[1..] + b;
      RecordAllAppend(Record(s, a[0]), a[1..], b);
    } else {
      assert a + b == b;
    }
  }

  /** The dict `get_summary` returns for `stats` at clock reading `now`. */
  function Summary(stats: Stats, now: int): (r: Value)
    ensures r.Dict?
    ensures r.entries.Keys == {"session_duration_minutes", "websites_visited", "total_clicks", "search_queries", "forms_filled"}
  {
    Dict(map[
      "session_duration_minutes" := Int((now - stats.sessionStart) / 60),
      "websites_visited" := Int(stats.websitesVisited),
      "total_clicks" := Int(stats.clicksMade),
      "search_queries" := Int(stats.searchQueries),
      "forms_filled" := Int(stats.formsFilled)])
  }

  class ActivityTracker {
    var stats: Stats

    /** `__init__`: every counter at zero, the session starting now. */
    constructor(now: int)
      ensures stats == Stats(0, 0, 0, 0, now, 0)
    {
      stats := Stats(0, 0, 0, 0, now, 0);
    }

    /** `record_website_visit`: only `websites_visited` changes, by one. */
    method RecordWebsiteVisit(url: string)
      modifies this
      ensures stats == Record(old(stats), Visit)
      ensures stats.websitesVisited == old(stats.websitesVisited) + 1
      ensures NoCounterDecreased(old(stats), stats)
    {
      stats := stats.(websitesVisited := stats.websitesVisited + 1);
    }

    /** `record_click`: only `clicks_made` changes, by one. */
    method RecordClick()
      modifies this
      ensures stats == Record(old(stats), Click)
      ensures stats.clicksMade == old(stats.clicksMade) + 1
      ensures NoCounterDecreased(old(stats), stats)
    {
      stats := stats.(clicksMade := stats.clicksMade + 1);
    }

    /** `record_search`: only `search_queries` changes, by one. */
    method RecordSearch(query: string)
      modifies this
      ensures stats == Record(old(stats), Search)
      ensures stats.searchQueries == old(stats.searchQueries) + 1
      ensures NoCounterDecreased(old(stats), stats)
    {
      stats := stats.(searchQueries := stats.searchQueries + 1);
    }

    /** `record_form_fill`: only `forms_filled` changes, by one. */
    method RecordFormFill()
      modifies this
      ensures stats == Record(old(stats), FormFill)
      ensures stats.formsFilled == old(stats.formsFilled) + 1
      ensures NoCounterDecreased(old(stats), stats)
    {
      stats := stats.(formsFilled := stats.formsFilled + 1);
    }

    /** `get_summary`: the counters as they are, `clicks_made` under the key
        `total_clicks`; the one change is that `total_time_seconds` now
        holds the time elapsed since the session start. */
    method GetSummary(now: int) returns (summary: Value)
      modifies this
      ensures stats == old(stats).(totalTimeSeconds := now - old(stats.sessionStart))
      ensures summary == Summary(old(stats), now)
      ensures summary.entries["websites_visited"] == Int(stats.websitesVisited)
      ensures summary.entries["total_clicks"] == Int(stats.clicksMade)
      ensures summary.entries["search_queries"] == Int(stats.searchQueries)
      ensures summary.entries["forms_filled"] == Int(stats.formsFilled)
      ensures "clicks_made" !in summary.entries
    {
      summary := Summary(stats, now);
      stats := stats.(totalTimeSeconds := now - stats.sessionStart);
    }
  }
}
