/** The control plane of daemon.py: the command layer of `DecoyDaemon`
    (`process_command` and the `cmd_*` handlers), the request accumulation
    of `handle_client`, the accept loop, and the HTTP bridge's path routing.

    Sockets, threads and the HTTP server are not modelled: a connection is
    the sequence of chunks `recv` returns, clients are handled one after the
    other, and `cmd_start` counts the session threads it would launch. JSON
    decoding is a parameter (`parse`). */
module Daemon {
  import opened Values
  import opened Text
  import opened Tracker
  import opened Service

  type Bytes = seq<bv8>

  /** What `json.loads(data.decode('utf-8'))` makes of some bytes. */
  datatype Decoded =
    | Parsed(value: Value)
    | BadJson(message: string)   // json.JSONDecodeError
    | BadUtf8(message: string)   // UnicodeDecodeError, which is not a JSONDecodeError

  /** The commands `process_command` knows, and everything else. */
  datatype Command = Start | Stop | Status | ActivityLog | Shutdown | Unknown(name: Value)

  /** `request.get('command', 'unknown')`, dispatched. */
  function CommandOf(request: map<string, Value>): (c: Command)
    ensures c == Start <==> "command" in request && request["command"] == Str("start")
    ensures c == Stop <==> "command" in request && request["command"] == Str("stop")
    ensures c == Status <==> "command" in request && request["command"] == Str("status")
    ensures c == ActivityLog <==> "command" in request && request["command"] == Str("activity-log")
    ensures c == Shutdown <==> "command" in request && request["command"] == Str("shutdown")
    ensures c.Unknown? ==> c.name == (if "command" in request then request["command"] else Str("unknown"))
  {
    var name := if "command" in request then request["command"] else Str("unknown");
    if name == Str("start") then Start
    else if name == Str("stop") then Stop
    else if name == Str("status") then Status
    else if name == Str("activity-log") then ActivityLog
    else if name == Str("shutdown") then Shutdown
    else Unknown(name)
  }

  /** A request without a `command` key is the unknown command `unknown`. */
  lemma MissingCommandIsUnknown(request: map<string, Value>)
    requires "command" !in request
    ensures CommandOf(request) == Unknown(Str("unknown"))
    ensures UnknownReply(CommandOf(request).name) == Failure("Unknown command: unknown")
  {
    assert "Unknown command: " + "unknown" == "Unknown command: unknown";
  }

  /** The answer to any other command: a failure naming the command as an
      f-string shows it. */
  function UnknownReply(name: Value): (r: Value)
    ensures !Succeeded(r) && r.Dict? && r.entries.Keys == {"success", "error"}
    ensures r.entries["error"].Str? && StartsWith(r.entries["error"].s, "Unknown command: ")
    ensures name.Str? ==> r.entries["error"] == Str("Unknown command: " + name.s)
  {
    Failure("Unknown command: " + Show(name))
  }

  /** `cmd_start`'s answer, given whether there is a service and whether it
      is marked active. */
  function StartReply(initialized: bool, active: bool): (r: Value)
    ensures Succeeded(r) <==> initialized
  {
    if !initialized then Failure("Service not initialized")
    else if active then Success("Service already running")
    else Success("Service started")
  }

  /** `cmd_stop`'s answer, given whether there is a service, whether it is
      marked active and what `stop_session` raised, if anything: the error
      text of an exception becomes the answer's error. */
  function StopReply(initialized: bool, active: bool, raised: Option<string>): (r: Value)
    ensures Succeeded(r) <==> initialized && !(active && raised.Some?)
    ensures initialized && active && raised.Some? ==> r == Failure(raised.value)
  {
    if !initialized then Failure("Service not initialized")
    else if !active then Success("Service already stopped")
    else if raised.Some? then Failure(raised.value)
    else Success("Service stopped")
  }

  /** The stats `cmd_status` answers before asking the service. */
  const ZeroStats: map<string, Value> :=
    map["sitesVisited" := Int(0), "clicksMade" := Int(0), "searchesPerformed" := Int(0), "sessionDurationMinutes" := Int(0)]

  /** The `stats` dict of the service's status, when it has one. */
  function SuppliedStats(serviceStatus: Value): map<string, Value>
  {
    if serviceStatus.Dict? && "stats" in serviceStatus.entries && serviceStatus.entries["stats"].Dict?
    then serviceStatus.entries["stats"].entries
    else map[]
  }

  /** `response['stats'].update(service_status['stats'])`: every key the
      service supplies overwrites the default, every other default stays. */
  function MergeStats(defaults: map<string, Value>, serviceStatus: Value): (r: map<string, Value>)
    ensures r.Keys == defaults.Keys + SuppliedStats(serviceStatus).Keys
    ensures forall k :: k in SuppliedStats(serviceStatus) ==> r[k] == SuppliedStats(serviceStatus)[k]
    ensures forall k :: k in defaults && k !in SuppliedStats(serviceStatus) ==> r[k] == defaults[k]
  {
    defaults + SuppliedStats(serviceStatus)
  }

  /** `cmd_status`'s answer: `running` is the daemon's `service_active`,
      whatever the service is doing. */
  function StatusReply(initialized: bool, active: bool, serviceStatus: Value): (r: Value)
    ensures !initialized ==> r == Failure("Service not initialized")
    ensures initialized ==> Succeeded(r) && "running" in r.entries && "stats" in r.entries
    ensures initialized ==> r.entries["running"] == Bool(active)
    ensures initialized ==> r.entries["stats"] == Dict(MergeStats(ZeroStats, serviceStatus))
  {
    if !initialized then Failure("Service not initialized")
    else Dict(map["success" := Bool(true), "running" := Bool(active), "stats" := Dict(MergeStats(ZeroStats, serviceStatus))])
  }

  /** The service supplies all four stats, so `cmd_status` shows the
      tracker's counters and none of the zeros. */
  lemma StatusShowsServiceCounters(counters: Stats, active: bool, now: int)
    ensures var stats := StatusReply(true, active, StatusOf(counters, now)).entries["stats"].entries;
      && stats.Keys == ZeroStats.Keys
      && stats["sitesVisited"] == Int(counters.websitesVisited)
      && stats["clicksMade"] == Int(counters.clicksMade)
      && stats["searchesPerformed"] == Int(counters.searchQueries)
      && stats["sessionDurationMinutes"] == StatusOf(counters, now).entries["stats"].entries["sessionDurationMinutes"]
  {
    var supplied := SuppliedStats(StatusOf(counters, now));
    assert supplied == StatusOf(counters, now).entries["stats"].entries;
  }

  /** `service.log` as `cmd_activity_log` finds it. */
  datatype LogFile = Missing | Unreadable(error: string) | Lines(lines: seq<string>)

  /** The log lines that record a visit or a search. */
  predicate IsActivity(line: string)
  {
    Contains(line, "Visited:") || Contains(line, "Searched:")
  }

  /** `lines[-n:]`: the last `n` lines, or all of them when there are fewer. */
  function TakeLast(lines: seq<string>, n: nat): (r: seq<string>)
    ensures |r| <= n && |r| <= |lines|
    ensures r == lines[|lines| - |r|..]
    ensures |lines| >= n ==> |r| == n
  {
    if |lines| > n then lines[|lines| - n..] else lines
  }

  /** The activity lines of `window`, stripped, in order. */
  function Activities(window: seq<string>): (r: seq<string>)
    ensures |r| <= |window|
    decreases |window|
  {
    if window == [] then []
    else
      var last := window[|window| - 1];
      Activities(window[..|window| - 1]) + (if IsActivity(last) then [Strip(last)] else [])
  }

  /** Stripping keeps the marker that made a line an activity. */
  lemma StrippedActivity(line: string)
    requires IsActivity(line)
    ensures IsActivity(Strip(line))
  {
    assert NoSpace("Visited:") && NoSpace("Searched:");
    if Contains(line, "Visited:") {
      StripKeepsMarker(line, "Visited:");
    } else {
      StripKeepsMarker(line, "Searched:");
    }
  }

  /** Every entry is an activity ... */
  lemma {:induction false} ActivitiesAreActivities(window: seq<string>)
    ensures forall i :: 0 <= i < |Activities(window)| ==> IsActivity(Activities(window)[i])
    decreases |window|
  {
    if window != [] {
      var last := window[|window| - 1];
      ActivitiesAreActivities(window[..|window| - 1]);
      if IsActivity(last) {
        StrippedActivity(last);
      }
    }
  }

  /** The positions of the activity lines of `window`, in order. */
  function ActivityIndices(window: seq<string>): (idx: seq<nat>)
    ensures forall k :: 0 <= k < |idx| ==> idx[k] < |window|
    decreases |window|
  {
    if window == [] then []
    else ActivityIndices(window[..|window| - 1]) + (if IsActivity(window[|window| - 1]) then [|window| - 1] else [])
  }

  /** Entry `k` is the stripped line at the `k`-th activity position. */
  lemma {:induction false} ActivitiesAtIndices(window: seq<string>)
    ensures |Activities(window)| == |ActivityIndices(window)|
    ensures forall k :: 0 <= k < |ActivityIndices(window)| ==>
      IsActivity(window[ActivityIndices(window)[k]]) && Activities(window)[k] == Strip(window[ActivityIndices(window)[k]])
    decreases |window|
  {
    if window != [] {
      var init := window[..|window| - 1];
      ActivitiesAtIndices(init);
      var idx0 := ActivityIndices(init);
      forall k | 0 <= k < |idx0|
        ensures window[idx0[k]] == init[idx0[k]]
      {
      }
    }
  }

  /** The activity positions are increasing, and every activity line's
      position is among them. */
  lemma {:induction false} ActivityIndicesOrdered(window: seq<string>)
    ensures forall k, l :: 0 <= k < l < |ActivityIndices(window)| ==> ActivityIndices(window)[k] < ActivityIndices(window)[l]
    ensures forall j :: 0 <= j < |window| && IsActivity(window[j]) ==> j in ActivityIndices(window)
    decreases |window|
  {
    if window != [] {
      var init := window[..|window| - 1];
      ActivityIndicesOrdered(init);
      forall j | 0 <= j < |init|
        ensures window[j] == init[j]
      {
      }
    }
  }

  /** ... and they are exactly the activity lines of the window, stripped,
      each once and in the order of the window. */
  lemma ActivitiesExactly(window: seq<string>)
    ensures var idx := ActivityIndices(window);
      && |Activities(window)| == |idx|
      && (forall k :: 0 <= k < |idx| ==> IsActivity(window[idx[k]]) && Activities(window)[k] == Strip(window[idx[k]]))
      && (forall k, l :: 0 <= k < l < |idx| ==> idx[k] < idx[l])
      && (forall j :: 0 <= j < |window| && IsActivity(window[j]) ==> j in idx)
  {
    ActivitiesAtIndices(window);
    ActivityIndicesOrdered(window);
  }

  /** Only the last 20 lines are looked at, so at most 20 activities come back. */
  lemma AtMostTwentyActivities(lines: seq<string>)
    ensures |Activities(TakeLast(lines, 20))| <= 20
  {
  }

  /** `cmd_activity_log`'s answer: a failure only when the log cannot be
      read; otherwise at most 20 entries, each an activity line. */
  function ActivityLogReply(log: LogFile): (r: Value)
    ensures Succeeded(r) <==> !log.Unreadable?
    ensures log.Unreadable? ==> r == Failure(log.error)
    ensures !log.Unreadable? ==> "activities" in r.entries && r.entries["activities"].List?
    ensures log.Missing? ==> r.entries["activities"] == List([])
    ensures log.Lines? ==> |r.entries["activities"].items| <= 20
    ensures log.Lines? ==> forall i :: 0 <= i < |r.entries["activities"].items| ==>
      r.entries["activities"].items[i].Str? && IsActivity(r.entries["activities"].items[i].s)
  {
    match log
    case Missing => Dict(map["success" := Bool(true), "activities" := List([])])
    case Unreadable(error) => Failure(error)
    case Lines(lines) =>
      ActivitiesAreActivities(TakeLast(lines, 20));
      Dict(map["success" := Bool(true), "activities" := StrList(Activities(TakeLast(lines, 20)))])
  }

  /** The reply to a request that decoded to something other than an
      object: `request.get` raises AttributeError, and `handle_client`
      answers with its text. */
  function NoGetReply(v: Value): Value
  {
    Failure(NoGetError(v))
  }

  /** The first `k` chunks joined. */
  function Joined(chunks: seq<Bytes>): Bytes
    decreases |chunks|
  {
    if chunks == [] then [] else Joined(chunks[..|chunks| - 1]) + chunks[|chunks| - 1]
  }

  /** The HTTP bridge's endpoints. */
  datatype Route = StatusRoute | ActivityLogRoute | HealthRoute | StartRoute | StopRoute | NoRoute

  /** The position of the first character of `s` that is in `stops`, or |s|. */
  function FirstOf(s: string, stops: set<char>): (i: nat)
    ensures i <= |s| && (i < |s| ==> s[i] in stops)
    ensures forall j :: 0 <= j < i ==> s[j] !in stops
    decreases |s|
  {
    if s == [] || s[0] in stops then 0
    else
      var i := FirstOf(s[1..], stops);
      assert forall j :: 1 <= j < i + 1 ==> s[j] == s[1..][j - 1];
      i + 1
  }

  /** The position of the last `c` in `s`, or -1. */
  function LastIndexOf(s: string, c: char): (i: int)
    ensures -1 <= i < |s| && (i >= 0 ==> s[i] == c)
    ensures forall j :: i < j < |s| ==> s[j] != c
    decreases |s|
  {
    if s == [] then -1
    else if s[|s| - 1] == c then |s| - 1
    else LastIndexOf(s[..|s| - 1], c)
  }

  /** `urlparse`'s removal of `;params` from the last path segment. */
  function StripParams(path: string): (p: string)
    ensures |p| <= |path| && p == path[..|p|]
    ensures ';' !in path ==> p == path
  {
    var slash := LastIndexOf(path, '/');
    var from := if slash < 0 then 0 else slash;
    var semi := FirstOf(path[from..], {';'});
    if from + semi < |path| then path[..from + semi] else path
  }

  /** `urlparse(target).path` for a request target that has no scheme: a
      leading `//host` is the network location, the path ends at the first
      `?` or `#`, and `;params` after its last `/` are dropped. */
  function UrlPath(target: string): (p: string)
    ensures '?' !in p && '#' !in p
    ensures !StartsWith(target, "//") && '?' !in target && '#' !in target && ';' !in target ==> p == target
  {
    var rest := if StartsWith(target, "//") then target[2 + FirstOf(target[2..], {'/', '?', '#'})..] else target;
    var path := rest[..FirstOf(rest, {'?', '#'})];
    StripParams(path)
  }

  /** `do_GET`'s dispatch on the path. */
  function GetRoute(target: string): (r: Route)
    ensures r == StatusRoute <==> UrlPath(target) == "/api/status"
    ensures r == ActivityLogRoute <==> UrlPath(target) == "/api/activity-log"
    ensures r == HealthRoute <==> UrlPath(target) == "/api/health"
    ensures r != StartRoute && r != StopRoute
  {
    var path := UrlPath(target);
    if path == "/api/status" then StatusRoute
    else if path == "/api/activity-log" then ActivityLogRoute
    else if path == "/api/health" then HealthRoute
    else NoRoute
  }

  /** `do_POST`'s dispatch on the path. */
  function PostRoute(target: string): (r: Route)
    ensures r == StartRoute <==> UrlPath(target) == "/api/start"
    ensures r == StopRoute <==> UrlPath(target) == "/api/stop"
    ensures r == StartRoute || r == StopRoute || r == NoRoute
  {
    var path := UrlPath(target);
    if path == "/api/start" then StartRoute
    else if path == "/api/stop" then StopRoute
    else NoRoute
  }

  /** A query string or a fragment after a plain path does not change
      the path ... */
  lemma QueryAndFragmentIgnoredInPath(path: string, c: char, rest: string)
    requires c == '?' || c == '#'
    requires '?' !in path && '#' !in path && ';' !in path && !StartsWith(path, "//")
    ensures UrlPath(path + [c] + rest) == path
  {
    var t := path + [c] + rest;
    assert t[|path|] == c;
    assert forall j :: 0 <= j < |path| ==> t[j] == path[j];
    assert !StartsWith(t, "//") by {
      if |path| >= 2 {
        assert t[..2] == path[..2];
      } else if |path| == 1 {
        assert t[1] == c;
      } else {
        assert t[0] == c;
      }
    }
    var i := FirstOf(t, {'?', '#'});
    assert i == |path|;
    assert t[..i] == path;
  }

  /** ... so it does not change the endpoint either. */
  lemma QueryAndFragmentIgnored(path: string, c: char, rest: string)
    requires c == '?' || c == '#'
    requires '?' !in path && '#' !in path && ';' !in path && !StartsWith(path, "//")
    ensures GetRoute(path + [c] + rest) == GetRoute(path)
    ensures PostRoute(path + [c] + rest) == PostRoute(path)
  {
    QueryAndFragmentIgnoredInPath(path, c, rest);
    SamePathSameRoutes(path + [c] + rest, path);
  }

  /** The endpoint depends on the path alone. */
  lemma SamePathSameRoutes(a: string, b: string)
    requires UrlPath(a) == UrlPath(b)
    ensures GetRoute(a) == GetRoute(b) && PostRoute(a) == PostRoute(b)
  {
  }

  /** What the HTTP bridge sends: a JSON body with status 200, or
      `send_error(404, "Not Found")`. */
  datatype HttpReply = Ok(body: Value) | NotFound

  /** A snapshot of the daemon's state and of its service's. */
  datatype DaemonView = DaemonView(running: bool, serviceActive: bool, sessionsLaunched: nat, service: Option<ServiceView>)

  /** The service can be marked active only when there is one. */
  predicate ActiveHasService(v: DaemonView)
  {
    v.serviceActive ==> v.service.Some?
  }

  /** `cmd_start`: launch a session only when there is a service and it is
      not active yet. */
  function Started(v: DaemonView): (Value, DaemonView)
  {
    if v.service.None? || v.serviceActive then (StartReply(v.service.Some?, v.serviceActive), v)
    else (StartReply(true, false), v.(serviceActive := true, sessionsLaunched := v.sessionsLaunched + 1))
  }

  /** `cmd_stop`: stop the session only when the service is active, and
      mark it inactive only when `stop_session` returned; `closing` is what
      closing the browser raises, if anything. */
  function StoppedAt(v: DaemonView, now: int, closing: Option<string>): (Value, DaemonView)
  {
    if v.service.None? || !v.serviceActive then (StopReply(v.service.Some?, v.serviceActive, None), v)
    else
      var stop := Service.Stop(v.service.value, now, closing);
      (StopReply(true, true, stop.0), v.(serviceActive := stop.0.Some?, service := Some(stop.1)))
  }

  /** `cmd_status`'s answer in a given state. */
  function StatusIn(v: DaemonView, now: int): Value
  {
    StatusReply(v.service.Some?, v.serviceActive, if v.service.None? then Null else StatusOf(v.service.value.stats, now))
  }

  /** `process_command`: the reply and the new state, for each command.
      Only `start` launches a session, only `stop` touches the service,
      only `shutdown` ends the accept loop, and nothing ever restarts it.
      A `stop` whose `stop_session` raises (`closing`) answers the error and
      leaves the service marked active. */
  function Dispatch(cmd: Command, v: DaemonView, now: int, log: LogFile, closing: Option<string>): (out: (Value, DaemonView))
    ensures out.1.running == (v.running && !cmd.Shutdown?)
    ensures !cmd.Stop? ==> out.1.service == v.service
    ensures out.1.sessionsLaunched == v.sessionsLaunched + (if cmd.Start? && v.service.Some? && !v.serviceActive then 1 else 0)
    ensures !cmd.Start? && !cmd.Stop? ==> out.1.serviceActive == v.serviceActive
    ensures cmd.Start? ==> (Succeeded(out.0) <==> v.service.Some?)
    ensures cmd.Start? && v.service.Some? ==> out.1.serviceActive
    ensures cmd.Stop? ==>
      (Succeeded(out.0) <==> v.service.Some? && !(v.serviceActive && StopRaises(v.service.value, closing)))
    ensures cmd.Stop? && v.service.Some? ==>
      (out.1.serviceActive <==> v.serviceActive && StopRaises(v.service.value, closing))
    ensures cmd.Stop? && v.service.Some? && v.serviceActive ==>
      out.1.service == Some(Service.Stop(v.service.value, now, closing).1)
    ensures cmd.Stop? && v.service.Some? && v.serviceActive && StopRaises(v.service.value, closing) ==>
      out.0 == Failure(closing.value)
    ensures cmd.Stop? && !(v.service.Some? && v.serviceActive) ==> out.1 == v
    ensures ActiveHasService(v) ==> ActiveHasService(out.1)
  {
    match cmd
    case Start => Started(v)
    case Stop => StoppedAt(v, now, closing)
    case Status => (StatusIn(v, now), v)
    case ActivityLog => (ActivityLogReply(log), v)
    case Shutdown => (Success("Daemon shutting down"), v.(running := false))
    case Unknown(name) => (UnknownReply(name), v)
  }

  /** A second `start` changes nothing: one session is launched, not two. */
  lemma StartTwice(v: DaemonView, now: int, log: LogFile, closing: Option<string>)
    ensures var once := Dispatch(Start, v, now, log, closing).1;
      Dispatch(Start, once, now, log, closing).1 == once
  {
  }

  /** `start` then `stop` on an idle service leaves it idle again, with one
      session launched and stopped, unless closing the browser raises: then
      the error is the answer and the service is still marked active. */
  lemma StartThenStop(v: DaemonView, now: int, log: LogFile, closing: Option<string>)
    requires v.service.Some? && !v.serviceActive
    ensures var started := Dispatch(Start, v, now, log, closing);
      var stopped := Dispatch(Stop, started.1, now, log, closing);
      && Succeeded(started.0)
      && (Succeeded(stopped.0) <==> !StopRaises(v.service.value, closing))
      && (!StopRaises(v.service.value, closing) ==>
            stopped.1 == v.(sessionsLaunched := v.sessionsLaunched + 1, service := Some(AfterStop(v.service.value, now))))
      && (StopRaises(v.service.value, closing) ==>
            && stopped.0 == Failure(closing.value)
            && stopped.1 == v.(sessionsLaunched := v.sessionsLaunched + 1, serviceActive := true,
                               service := Some(Service.Stop(v.service.value, now, closing).1)))
  {
  }

  /** A `stop` after one that returned is answered "already stopped" and
      changes nothing; after one that raised, the service is still active,
      so the second `stop` calls `stop_session` again. */
  lemma StopAgain(v: DaemonView, now: int, log: LogFile, first: Option<string>, second: Option<string>)
    requires v.service.Some?
    ensures var once := Dispatch(Stop, v, now, log, first);
      var twice := Dispatch(Stop, once.1, now, log, second);
      && (Succeeded(once.0) ==> twice == (Success("Service already stopped"), once.1))
      && (!Succeeded(once.0) ==> twice.1.service == Some(Service.Stop(once.1.service.value, now, second).1))
  {
  }

  /** How many chunks the receive loop of `handle_client` consumes, from
      chunk `k` on: it stops at the end of the chunks, at an empty chunk
      (the peer closed), or after the first chunk that makes the data so
      far decode (or fail to decode as UTF-8). */
  function ReceivedCount(chunks: seq<Bytes>, parse: Bytes -> Decoded, k: nat): (n: nat)
    requires k <= |chunks|
    ensures k <= n <= |chunks|
    decreases |chunks| - k
  {
    if k == |chunks| || chunks[k] == [] then k
    else if !parse(Joined(chunks[..k + 1])).BadJson? then k + 1
    else ReceivedCount(chunks, parse, k + 1)
  }

  /** The bytes the receive loop of `handle_client` ends with. */
  function ReceivedData(chunks: seq<Bytes>, parse: Bytes -> Decoded): Bytes
  {
    Joined(chunks[..ReceivedCount(chunks, parse, 0)])
  }

  /** What one connection gets back, and the daemon's state after it: no
      answer for an empty request, the decoding error for data that does
      not decode, the AttributeError of `request.get` for a value that is
      not an object, and otherwise the command's reply and effect. */
  function ClientOutcome(chunks: seq<Bytes>, parse: Bytes -> Decoded, v: DaemonView, now: int, log: LogFile,
                         closing: Option<string>): (out: (Option<Value>, DaemonView))
    ensures !v.running ==> !out.1.running
    ensures ActiveHasService(v) ==> ActiveHasService(out.1)
    ensures out.0.None? <==> ReceivedData(chunks, parse) == []
    ensures out.0.None? ==> out.1 == v
    ensures out.1.service != v.service ==> out.1.service.Some? && v.service.Some? && !out.1.service.value.running
  {
    var data := ReceivedData(chunks, parse);
    if data == [] then (None, v)
    else match parse(data)
      case BadJson(message) => (Some(Failure("Invalid JSON: " + message)), v)
      case BadUtf8(message) => (Some(Failure(message)), v)
      case Parsed(request) =>
        if request.Dict? then
          var out := Dispatch(CommandOf(request.entries), v, now, log, closing);
          (Some(out.0), out.1)
        else (Some(NoGetReply(request)), v)
  }

  /** A request that does not decode, or decodes to something other than
      an object, is answered with its error and changes nothing; an object
      is answered and handled as its command. */
  lemma ClientOutcomeCases(chunks: seq<Bytes>, parse: Bytes -> Decoded, v: DaemonView, now: int, log: LogFile,
                           closing: Option<string>)
    ensures var data := ReceivedData(chunks, parse);
      var out := ClientOutcome(chunks, parse, v, now, log, closing);
      && (data != [] && parse(data).BadJson? ==> out == (Some(Failure("Invalid JSON: " + parse(data).message)), v))
      && (data != [] && parse(data).BadUtf8? ==> out == (Some(Failure(parse(data).message)), v))
      && (data != [] && parse(data).Parsed? && !parse(data).value.Dict? ==> out == (Some(NoGetReply(parse(data).value)), v))
      && (data != [] && parse(data).Parsed? && parse(data).value.Dict? ==>
            out == (Some(Dispatch(CommandOf(parse(data).value.entries), v, now, log, closing).0),
                    Dispatch(CommandOf(parse(data).value.entries), v, now, log, closing).1))
  {
  }

  /** Connection `i` got `replies[i]` and took the daemon from `views[i]`
      to `views[i + 1]`, for every connection served, with `closings[i]`
      what closing the browser raised while it was handled. */
  predicate Served(connections: seq<seq<Bytes>>, parse: Bytes -> Decoded, now: int, log: LogFile,
                   replies: seq<Option<Value>>, views: seq<DaemonView>, closings: seq<Option<string>>)
  {
    && |replies| <= |connections| && |views| == |replies| + 1 && |closings| == |replies|
    && forall i :: 0 <= i < |replies| ==>
         (replies[i], views[i + 1]) == ClientOutcome(connections[i], parse, views[i], now, log, closings[i])
  }

  /** Every connection but possibly the last was accepted while the daemon
      was running before it. */
  predicate AcceptedWhileRunning(views: seq<DaemonView>, handled: nat)
    requires handled < |views|
  {
    (handled > 0 ==> views[0].running) && forall i :: 0 <= i < handled - 1 ==> views[i].running
  }

  lemma ServedOneMore(connections: seq<seq<Bytes>>, parse: Bytes -> Decoded, now: int, log: LogFile,
                      replies: seq<Option<Value>>, views: seq<DaemonView>, closings: seq<Option<string>>,
                      reply: Option<Value>, after: DaemonView, closing: Option<string>)
    requires Served(connections, parse, now, log, replies, views, closings) && |replies| < |connections|
    requires (reply, after) == ClientOutcome(connections[|replies|], parse, views[|replies|], now, log, closing)
    ensures Served(connections, parse, now, log, replies + [reply], views + [after], closings + [closing])
  {
    var r, v, c := replies + [reply], views + [after], closings + [closing];
    forall i | 0 <= i < |r|
      ensures (r[i], v[i + 1]) == ClientOutcome(connections[i], parse, v[i], now, log, c[i])
    {
      if i < |replies| {
        assert r[i] == replies[i] && v[i + 1] == views[i + 1] && v[i] == views[i] && c[i] == closings[i];
      }
    }
  }

  lemma AcceptedOneMore(views: seq<DaemonView>, handled: nat, after: DaemonView)
    requires handled < |views| == handled + 1 && AcceptedWhileRunning(views, handled)
    requires views[handled].running || (handled > 0 && views[handled - 1].running)
    requires handled > 0 && !views[handled - 1].running ==> !views[handled].running
    requires !views[handled].running ==> !after.running
    ensures AcceptedWhileRunning(views + [after], handled + 1)
  {
    var v := views + [after];
    forall i | 0 <= i < handled
      ensures v[i].running
    {
      assert v[i] == views[i];
    }
  }

  class DecoyDaemon {
    /** The accept loop runs while this holds. */
    var running: bool
    /** Set by `cmd_start`, cleared only by `cmd_stop`. */
    var serviceActive: bool
    /** The one service the daemon loaded at start-up, or None when loading
        it failed. */
    const service: DecoyService?
    /** How many session threads `cmd_start` has launched. */
    var sessionsLaunched: nat

    /** `__init__`, given the outcome of constructing the service. */
    constructor(loaded: DecoyService?)
      ensures running && !serviceActive && service == loaded && sessionsLaunched == 0
    {
      running := true;
      serviceActive := false;
      service := loaded;
      sessionsLaunched := 0;
    }

    /** The objects a stop may change: the service, its tracker, its agent. */
    function ServiceParts(): set<object>
      reads this, service
    {
      if service == null then {}
      else {service, service.tracker} + (if service.agent == null then {} else {service.agent})
    }

    function View(): DaemonView
      reads this, service, ServiceParts()
    {
      DaemonView(running, serviceActive, sessionsLaunched, if service == null then None else Some(service.View()))
    }

    /** `cmd_start`: mark the service active and launch `start_session` in a
        thread, unless there is no service or it is already active. */
    method CmdStart() returns (reply: Value)
      modifies this
      ensures (reply, View()) == Dispatch(Start, old(View()), 0, Missing, None)
    {
      if service == null {
        return Failure("Service not initialized");
      }
      if serviceActive {
        return Success("Service already running");
      }
      sessionsLaunched := sessionsLaunched + 1;
      serviceActive := true;
      reply := Success("Service started");
    }

    /** `cmd_stop`: stop the session once and mark the service inactive;
        when it is not active, answer without touching the service. When
        `stop_session` raises (`closing`), the `except` answers its error
        and the service stays marked active. */
    method CmdStop(now: int) returns (reply: Value, ghost closing: Option<string>)
      modifies this, ServiceParts()
      ensures (reply, View()) == Dispatch(Stop, old(View()), now, Missing, closing)
      ensures closing.Some? ==> old(serviceActive) && service != null
      ensures service != null ==> service.agent == old(service.agent)
    {
      closing := None;
      if service == null {
        return Failure("Service not initialized"), closing;
      }
      if !serviceActive {
        return Success("Service already stopped"), closing;
      }
      var error := service.StopSession(now);
      closing := error;
      if error.Some? {
        return Failure(error.value), closing;
      }
      serviceActive := false;
      reply := Success("Service stopped");
    }

    /** `cmd_status` */
    function CmdStatus(now: int): (r: Value)
      reads this, service, ServiceParts()
      ensures r == Dispatch(Status, View(), now, Missing, None).0
      ensures service == null ==> r == Failure("Service not initialized")
      ensures service != null ==> r.entries["running"] == Bool(serviceActive)
    {
      if service == null then Failure("Service not initialized")
      else StatusReply(true, serviceActive, StatusOf(service.tracker.stats, now))
    }

    /** `cmd_activity_log`: look at the last 20 lines of the log and keep,
        stripped and in order, those that record a visit or a search. */
    method CmdActivityLog(log: LogFile) returns (reply: Value)
      ensures reply == ActivityLogReply(log)
    {
      match log
      case Missing =>
        reply := Dict(map["success" := Bool(true), "activities" := List([])]);
      case Unreadable(error) =>
        reply := Failure(error);
      case Lines(lines) =>
        var activities := CollectActivities(TakeLast(lines, 20));
        reply := Dict(map["success" := Bool(true), "activities" := StrList(activities)]);
    }

    /** The loop of `cmd_activity_log` over the last lines of the log: keep
        each line that records a visit or a search, stripped. */
    static method CollectActivities(window: seq<string>) returns (activities: seq<string>)
      ensures activities == Activities(window)
    {
      activities := [];
      for i := 0 to |window|
        invariant activities == Activities(window[..i])
      {
        assert window[..i + 1][..i] == window[..i];
        if IsActivity(window[i]) {
          activities := activities + [Strip(window[i])];
        }
      }
      assert window[..|window|] == window;
    }

    /** `cmd_shutdown`: always succeeds, and ends the accept loop. */
    method CmdShutdown() returns (reply: Value)
      modifies this
      ensures (reply, View()) == Dispatch(Shutdown, old(View()), 0, Missing, None)
    {
      running := false;
      reply := Success("Daemon shutting down");
    }

    /** `process_command`: dispatch on the command name. */
    method ProcessCommand(request: map<string, Value>, now: int, log: LogFile)
      returns (reply: Value, ghost closing: Option<string>)
      modifies this, ServiceParts()
      ensures (reply, View()) == Dispatch(CommandOf(request), old(View()), now, log, closing)
      ensures service != null ==> service.agent == old(service.agent)
    {
      closing := None;
      match CommandOf(request)
      case Start =>
        reply := CmdStart();
      case Stop =>
        reply, closing := CmdStop(now);
      case Status =>
        reply := CmdStatus(now);
      case ActivityLog =>
        reply := CmdActivityLog(log);
      case Shutdown =>
        reply := CmdShutdown();
      case Unknown(name) =>
        reply := UnknownReply(name);
    }

    /** The receive loop of `handle_client`: append chunks until the peer
        closes (an empty chunk, or no more chunks) or the data so far
        decodes. Data that is not UTF-8 makes the loop raise
        (`utf8Error`). */
    method ReceiveRequest(chunks: seq<Bytes>, parse: Bytes -> Decoded) returns (data: Bytes, count: nat, utf8Error: Option<string>)
      ensures count == ReceivedCount(chunks, parse, 0)
      ensures count <= |chunks| && data == Joined(chunks[..count])
      ensures forall j :: 0 <= j < count ==> chunks[j] != []
      ensures forall j :: 1 <= j < count ==> parse(Joined(chunks[..j])).BadJson?
      ensures count == |chunks| || chunks[count] == [] || (count >= 1 && !parse(data).BadJson?)
      ensures data == [] <==> count == 0
      ensures utf8Error.Some? <==> count >= 1 && parse(data).BadUtf8?
      ensures utf8Error.Some? ==> utf8Error.value == parse(data).message
    {
      data := [];
      count := 0;
      utf8Error := None;
      assert chunks[..0] == [];
      while count < |chunks| && chunks[count] != []
        invariant count <= |chunks| && data == Joined(chunks[..count])
        invariant ReceivedCount(chunks, parse, count) == ReceivedCount(chunks, parse, 0)
        invariant forall j :: 0 <= j < count ==> chunks[j] != []
        invariant forall j :: 1 <= j <= count ==> parse(Joined(chunks[..j])).BadJson?
        invariant data == [] <==> count == 0
        decreases |chunks| - count
      {
        assert chunks[..count + 1][..count] == chunks[..count];
        data := data + chunks[count];
        count := count + 1;
        match parse(data)
        case Parsed(_) =>
          return;
        case BadUtf8(message) =>
          return data, count, Some(message);
        case BadJson(_) =>
      }
    }

    /** `handle_client`: nothing is sent back for an empty request; data
        that does not decode is answered with its error; an object is a
        command, anything else makes `request.get` raise. */
    method HandleClient(chunks: seq<Bytes>, parse: Bytes -> Decoded, now: int, log: LogFile)
      returns (sent: Option<Value>, ghost data: Bytes, ghost closing: Option<string>)
      modifies this, ServiceParts()
      ensures (sent, View()) == ClientOutcome(chunks, parse, old(View()), now, log, closing)
      ensures data == ReceivedData(chunks, parse)
      ensures service != null ==> service.agent == old(service.agent)
    {
      closing := None;
      var received, count, utf8Error := ReceiveRequest(chunks, parse);
      data := received;
      if utf8Error.Some? {
        return Some(Failure(utf8Error.value)), data, closing;
      }
      if received == [] {
        return None, data, closing;
      }
      match parse(received)
      case BadJson(message) =>
        sent := Some(Failure("Invalid JSON: " + message));
      case BadUtf8(message) =>
        sent := Some(Failure(message));
      case Parsed(request) =>
        if request.Dict? {
          var reply;
          reply, closing := ProcessCommand(request.entries, now, log);
          sent := Some(reply);
        } else {
          sent := Some(NoGetReply(request));
        }
    }

    /** The accept loop of `start`: while `running` holds, take the next
        connection and handle it. Handlers run in their own threads, so the
        loop may read `running` before the previous connection's handler
        has acted on it (`lateRead`): at most one connection after a
        shutdown is still served, and none after that. */
    method Serve(connections: seq<seq<Bytes>>, parse: Bytes -> Decoded, now: int, log: LogFile)
      returns (handled: nat, replies: seq<Option<Value>>, ghost views: seq<DaemonView>, ghost closings: seq<Option<string>>)
      modifies this, ServiceParts()
      ensures handled == |replies| && Served(connections, parse, now, log, replies, views, closings)
      ensures views[0] == old(View()) && views[handled] == View()
      ensures AcceptedWhileRunning(views, handled)
      ensures handled < |connections| ==> !running
      ensures service != null ==> service.agent == old(service.agent)
    {
      handled := 0;
      replies := [];
      views := [View()];
      closings := [];
      var wasRunning := running;
      while handled < |connections|
        invariant handled == |replies| && Served(connections, parse, now, log, replies, views, closings)
        invariant views[0] == old(View()) && views[handled] == View()
        invariant AcceptedWhileRunning(views, handled)
        invariant wasRunning == views[if handled == 0 then 0 else handled - 1].running
        invariant handled > 0 && !wasRunning ==> !running
        invariant service != null ==> service.agent == old(service.agent)
        decreases |connections| - handled
      {
        var lateRead: bool :| true;
        var accepting := if lateRead then wasRunning else running;
        if !accepting {
          break;
        }
        wasRunning := running;
        var sent, data, closing := HandleClient(connections[handled], parse, now, log);
        ServedOneMore(connections, parse, now, log, replies, views, closings, sent, View(), closing);
        AcceptedOneMore(views, handled, View());
        replies := replies + [sent];
        views := views + [View()];
        closings := closings + [closing];
        handled := handled + 1;
      }
    }

    /** `do_GET`: the status, the activity log and a health answer; every
        other path is not found. */
    method DoGet(target: string, now: int, log: LogFile) returns (reply: HttpReply)
      ensures GetRoute(target) == StatusRoute ==> reply == Ok(CmdStatus(now))
      ensures GetRoute(target) == ActivityLogRoute ==> reply == Ok(ActivityLogReply(log))
      ensures GetRoute(target) == HealthRoute ==> reply == Ok(Dict(map["success" := Bool(true), "status" := Str("healthy")]))
      ensures GetRoute(target) == NoRoute ==> reply == NotFound
    {
      match GetRoute(target)
      case StatusRoute =>
        reply := Ok(CmdStatus(now));
      case ActivityLogRoute =>
        var body := CmdActivityLog(log);
        reply := Ok(body);
      case HealthRoute =>
        reply := Ok(Dict(map["success" := Bool(true), "status" := Str("healthy")]));
      case _ =>
        reply := NotFound;
    }

    /** `do_POST`: start and stop, exactly as the socket commands do; every
        other path is not found and changes nothing. */
    method DoPost(target: string, now: int) returns (reply: HttpReply, ghost closing: Option<string>)
      modifies this, ServiceParts()
      ensures PostRoute(target) == StartRoute ==>
        reply == Ok(Dispatch(Start, old(View()), now, Missing, closing).0)
        && View() == Dispatch(Start, old(View()), now, Missing, closing).1
      ensures PostRoute(target) == StopRoute ==>
        reply == Ok(Dispatch(Stop, old(View()), now, Missing, closing).0)
        && View() == Dispatch(Stop, old(View()), now, Missing, closing).1
      ensures PostRoute(target) == NoRoute ==> reply == NotFound && View() == old(View())
      ensures service != null ==> service.agent == old(service.agent)
    {
      closing := None;
      match PostRoute(target)
      case StartRoute =>
        var body := CmdStart();
        reply := Ok(body);
      case StopRoute =>
        var body;
        body, closing := CmdStop(now);
        reply := Ok(body);
      case _ =>
        reply := NotFound;
    }
  }
}
