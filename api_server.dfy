/** The Flask control layer: start, stop and status over one global
    service, and the scheduling request's parameter check. */
module Api {
  import opened Values
  import opened Config
  import opened Tracker
  import opened Text
  import opened Service

  /** A Flask reply: the HTTP status code and the JSON body. */
  datatype Response = Response(code: int, body: Value)

  /** The outcome of `DecoyService('decoy_service/config')`: the loaded
      settings and websites, or the text of the exception it raised. */
  datatype Load = Loaded(settings: Settings, websites: Catalogue) | LoadFailed(error: string)

  /** `start_service`'s reply, given whether a running service exists and
      how constructing the new one went. */
  function StartResponse(alreadyRunning: bool, load: Load): (r: Response)
    ensures r.code == 400 <==> alreadyRunning
    ensures r.code == 500 <==> !alreadyRunning && load.LoadFailed?
    ensures r.code == 200 <==> Succeeded(r.body)
    ensures r.code == 400 ==> r.body == Failure("Service already running")
    ensures r.code == 500 ==> r.body == Failure(load.error)
    ensures r.code == 200 ==> "status" in r.body.entries && r.body.entries["status"] == Str("running")
  {
    if alreadyRunning then Response(400, Failure("Service already running"))
    else if load.LoadFailed? then Response(500, Failure(load.error))
    else Response(200, Dict(map[
      "success" := Bool(true),
      "message" := Str("Decoy service started"),
      "status" := Str("running")]))
  }

  /** `stop_service`'s reply, given whether a service exists and runs and
      what `stop_session` raised, if anything. */
  function StopResponse(present: bool, running: bool, raised: Option<string>): (r: Response)
    ensures r.code == 400 <==> !present || !running
    ensures r.code == 500 <==> present && running && raised.Some?
    ensures r.code == 200 <==> Succeeded(r.body)
    ensures r.code == 400 ==> r.body == Failure("Service not running")
    ensures r.code == 500 ==> r.body == Failure(raised.value)
    ensures r.code == 200 ==> "status" in r.body.entries && r.body.entries["status"] == Str("stopped")
  {
    if !present || !running then Response(400, Failure("Service not running"))
    else if raised.Some? then Response(500, Failure(raised.value))
    else Response(200, Dict(map[
      "success" := Bool(true),
      "message" := Str("Decoy service stopped"),
      "status" := Str("stopped")]))
  }

  /** Whatever the state, exactly one of start and stop is refused with 400
      (when the new service loads). */
  lemma ExactlyOneRefuses(present: bool, running: bool, settings: Settings, websites: Catalogue, raised: Option<string>)
    ensures (StartResponse(present && running, Loaded(settings, websites)).code == 400)
      != (StopResponse(present, running, raised).code == 400)
  {
  }

  /** The counters reported while nothing runs. */
  const ZeroCounters: map<string, Value> :=
    map["sitesVisited" := Int(0), "clicksMade" := Int(0), "searchesPerformed" := Int(0)]

  /** `summary.get(key, 0)`. */
  function SummaryGet(summary: map<string, Value>, key: string): (r: Value)
    ensures key in summary ==> r == summary[key]
    ensures key !in summary ==> r == Int(0)
  {
    if key in summary then summary[key] else Int(0)
  }

  /** `get_status`'s body: the tracker's summary, renamed, while a service
      runs; zeros otherwise, without `sessionDurationMinutes` when there is
      no service at all. */
  function StatusBody(present: bool, running: bool, summary: map<string, Value>): (r: Value)
    ensures r.Dict? && r.entries.Keys == {"running", "status", "stats"}
    ensures r.entries["running"] == Bool(present && running)
    ensures r.entries["status"] ==
      Str(if !present then "inactive" else if running then "running" else "stopped")
    ensures r.entries["stats"].Dict?
  {
    var stats :=
      if !present then ZeroCounters
      else if !running then ZeroCounters["sessionDurationMinutes" := Int(0)]
      else map[
        "sitesVisited" := SummaryGet(summary, "websites_visited"),
        "clicksMade" := SummaryGet(summary, "total_clicks"),
        "searchesPerformed" := SummaryGet(summary, "search_queries"),
        "sessionDurationMinutes" := SummaryGet(summary, "session_duration_minutes")];
    Dict(map[
      "running" := Bool(present && running),
      "status" := Str(if !present then "inactive" else if running then "running" else "stopped"),
      "stats" := Dict(stats)])
  }

  /** Unless a service runs, every reported counter is zero, and
      `sessionDurationMinutes` appears exactly when a service exists. */
  lemma StatusZeroUnlessRunning(present: bool, running: bool, summary: map<string, Value>)
    requires !(present && running)
    ensures var stats := StatusBody(present, running, summary).entries["stats"].entries;
      (forall k :: k in stats ==> stats[k] == Int(0))
      && ("sessionDurationMinutes" in stats <==> present)
      && {"sitesVisited", "clicksMade", "searchesPerformed"} <= stats.Keys
  {
  }

  /** While a service runs, the status reports the tracker's counters, with
      `clicks_made` read through the summary's `total_clicks` key. */
  lemma StatusReportsTracker(stats: Stats, now: int)
    ensures var reported := StatusBody(true, true, Summary(stats, now).entries).entries["stats"].entries;
      reported.Keys == {"sitesVisited", "clicksMade", "searchesPerformed", "sessionDurationMinutes"}
      && reported["sitesVisited"] == Int(stats.websitesVisited)
      && reported["clicksMade"] == Int(stats.clicksMade)
      && reported["searchesPerformed"] == Int(stats.searchQueries)
      && reported["sessionDurationMinutes"] == Int((now - stats.sessionStart) / 60)
  {
  }

  /** `key in data` for a request body: a dict's keys, a list's items, a
      string's substrings; on anything else `in` raises TypeError (None). */
  function HasKey(data: Value, key: string): (r: Option<bool>)
    ensures r.None? <==> !(data.Dict? || data.List? || data.Str?)
    ensures data.Dict? ==> r == Some(key in data.entries)
  {
    match data
    case Dict(entries) => Some(key in entries)
    case List(items) => Some(Str(key) in items)
    case Str(s) => Some(Contains(s, key))
    case _ => None
  }

  /** `int(v)`: an int as it is, a bool as 0 or 1, a string of digits with
      an optional sign; anything else raises. */
  function ToInt(v: Value): (r: Option<int>)
    ensures v.Int? ==> r == Some(v.i)
    ensures v.Null? || v.List? || v.Dict? ==> r.None?
  {
    match v
    case Int(i) => Some(i)
    case Bool(b) => Some(if b then 1 else 0)
    case Str(s) => ParseInt(s)
    case _ => None
  }

  /** The text of the exception `int(v)` raises. */
  function ToIntError(v: Value): string
  {
    match v
    case Str(s) => "invalid literal for int() with base 10: '" + s + "'"
    case _ => "int() argument must be a string, a bytes-like object or a real number, not '" + TypeName(v) + "'"
  }

  /** How `schedule_service` reads its body. */
  datatype ScheduleRequest =
    | MissingParameter
    | Malformed(error: string)
    | Params(interval: int, duration: int)

  /** The parameter check and the two `int(data.get(...))` conversions. */
  function CheckSchedule(data: Value): (r: ScheduleRequest)
    ensures data.Dict? ==>
      (r == MissingParameter <==> !("interval" in data.entries && "duration" in data.entries))
    ensures r.Params? ==>
      data.Dict? && "interval" in data.entries && "duration" in data.entries
      && ToInt(data.entries["interval"]) == Some(r.interval)
      && ToInt(data.entries["duration"]) == Some(r.duration)
    ensures !(data.Dict? || data.List? || data.Str?) ==> r.Malformed?
    ensures data.Dict? && "interval" in data.entries && "duration" in data.entries ==>
      if ToInt(data.entries["interval"]).None? then r == Malformed(ToIntError(data.entries["interval"]))
      else if ToInt(data.entries["duration"]).None? then r == Malformed(ToIntError(data.entries["duration"]))
      else r == Params(ToInt(data.entries["interval"]).value, ToInt(data.entries["duration"]).value)
  {
    match HasKey(data, "interval")
    case None => Malformed("argument of type '" + TypeName(data) + "' is not iterable")
    case Some(false) => MissingParameter
    case Some(true) =>
      if HasKey(data, "duration") == Some(false) then MissingParameter
      else if !data.Dict? then Malformed(NoGetError(data))
      else
        var interval := data.entries["interval"];
        var duration := data.entries["duration"];
        if ToInt(interval).None? then Malformed(ToIntError(interval))
        else if ToInt(duration).None? then Malformed(ToIntError(duration))
        else Params(ToInt(interval).value, ToInt(duration).value)
  }

  /** A body whose interval is a number written as text is read back as
      that number. */
  lemma ShownIntervalAccepted(interval: int, duration: int)
    ensures CheckSchedule(Dict(map["interval" := Str(IntToString(interval)), "duration" := Int(duration)]))
      == Params(interval, duration)
  {
    ParseShownInt(interval);
  }

  /** How setting up the scheduler went, once the body was read: loading
      the settings, setting up logging or constructing the scheduler failed
      (nothing is assigned), registering the job failed (the new scheduler
      is already assigned, without a job), starting it failed (assigned,
      with the job, not started), or all of it went through. */
  datatype Setup =
    | SetUp
    | SetupFailed(error: string)
    | ScheduleFailed(error: string)
    | StartFailed(error: string)

  /** The scheduler the `scheduler` global holds: the job registered on it
      (interval and duration in minutes), and whether it was started. */
  datatype Scheduler = Scheduler(job: Option<(int, int)>, started: bool)

  /** `schedule_service`'s reply, given the request's reading and how the
      setup went. */
  function ScheduleResponse(request: ScheduleRequest, setup: Setup): (r: Response)
    ensures r.code == 400 <==> request == MissingParameter
    ensures r.code == 200 <==> request.Params? && setup.SetUp?
    ensures r.code == 200 <==> Succeeded(r.body)
    ensures r.code != 200 && r.code != 400 ==>
      r.code == 500 && r.body == Failure(if request.Malformed? then request.error else setup.error)
    ensures r.code == 200 ==>
      "interval" in r.body.entries && "duration" in r.body.entries
      && r.body.entries["interval"] == Int(request.interval) && r.body.entries["duration"] == Int(request.duration)
  {
    match request
    case MissingParameter => Response(400, Failure("Missing interval or duration parameter"))
    case Malformed(error) => Response(500, Failure(error))
    case Params(interval, duration) =>
      if !setup.SetUp? then Response(500, Failure(setup.error))
      else Response(200, Dict(map[
        "success" := Bool(true),
        "message" := Str("Service scheduled every " + IntToString(interval) + " minutes"),
        "interval" := Int(interval),
        "duration" := Int(duration)]))
  }

  /** The `scheduler` global after a request read as `request` whose setup
      went as `setup`. */
  function SchedulerAfter(before: Option<Scheduler>, request: ScheduleRequest, setup: Setup): (s: Option<Scheduler>)
    ensures !request.Params? || setup.SetupFailed? ==> s == before
    ensures request.Params? && !setup.SetupFailed? ==> s.Some? && (s.value.started <==> setup.SetUp?)
    ensures request.Params? && (setup.SetUp? || setup.StartFailed?) ==> s.value.job == Some((request.interval, request.duration))
    ensures request.Params? && setup.ScheduleFailed? ==> s.value.job == None
  {
    if !request.Params? then before
    else match setup
      case SetupFailed(_) => before
      case ScheduleFailed(_) => Some(Scheduler(None, false))
      case StartFailed(_) => Some(Scheduler(Some((request.interval, request.duration)), false))
      case SetUp => Some(Scheduler(Some((request.interval, request.duration)), true))
  }

  /** A 200 answer always leaves a started scheduler running the requested
      job; a 400 or a malformed body leaves the scheduler as it was. */
  lemma ScheduledOnlyOnSuccess(before: Option<Scheduler>, data: Value, setup: Setup)
    ensures var request := CheckSchedule(data);
      var s := SchedulerAfter(before, request, setup);
      && (ScheduleResponse(request, setup).code == 200 ==>
            s == Some(Scheduler(Some((request.interval, request.duration)), true)))
      && (!request.Params? ==> s == before)
  {
  }

  /** The module globals `service`, `service_thread` and `scheduler`. */
  class ApiServer {
    var service: DecoyService?
    /** How many `start_session` threads have been launched. */
    var threadsLaunched: nat
    /** The scheduler last assigned, if any. */
    var scheduler: Option<Scheduler>

    constructor()
      ensures service == null && threadsLaunched == 0 && scheduler == None
    {
      service := null;
      threadsLaunched := 0;
      scheduler := None;
    }

    /** `start_service`: refused while a service runs; otherwise a fresh
        service replaces the old one and `start_session` is launched in a
        thread. The thread sets `running` only once the browser is open, so
        the new service is not yet running when the reply is sent. */
    method StartService(load: Load, now: int) returns (resp: Response)
      modifies this
      ensures resp == StartResponse(old(service != null && service.running), load)
      ensures resp.code == 200 ==>
        service != null && fresh(service) && !service.running && service.agent == null
        && service.settings == load.settings && service.websitesConfig == load.websites
        && service.tracker.stats == Stats(0, 0, 0, 0, now, 0)
        && threadsLaunched == old(threadsLaunched) + 1
      ensures resp.code != 200 ==> service == old(service) && threadsLaunched == old(threadsLaunched)
      ensures scheduler == old(scheduler)
    {
      if service != null && service.running {
        return Response(400, Failure("Service already running"));
      }
      match load
      case LoadFailed(error) =>
        resp := Response(500, Failure(error));
      case Loaded(settings, websites) =>
        service := new DecoyService(settings, websites, now);
        threadsLaunched := threadsLaunched + 1;
        resp := StartResponse(false, load);
    }

    /** The objects a stop may change: the service, its tracker, its agent. */
    function ServiceParts(): set<object>
      reads this, service
    {
      if service == null then {}
      else {service, service.tracker} + (if service.agent == null then {} else {service.agent})
    }

    /** `stop_service`: refused unless a service runs; otherwise
        `stop_session`, whose exception (`closing`) becomes a 500. */
    method StopService(now: int) returns (resp: Response, ghost closing: Option<string>)
      modifies ServiceParts()
      ensures resp == StopResponse(service != null, old(service != null && service.running), closing)
      ensures service == old(service) && threadsLaunched == old(threadsLaunched) && scheduler == old(scheduler)
      ensures service != null ==> !service.running && service.agent == old(service.agent)
      ensures old(service != null && service.running) ==> (closing, service.View()) == Stop(old(service.View()), now, closing)
      ensures !old(service != null && service.running) ==> closing.None?
      ensures resp.code == 200 ==>
        service.tracker.stats
          == old(service.tracker.stats).(totalTimeSeconds := now - old(service.tracker.stats.sessionStart))
        && (service.agent != null ==> !service.agent.isOpen)
      ensures resp.code == 200 ==> service.View() == AfterStop(old(service.View()), now)
      ensures resp.code != 200 && service != null ==> service.tracker.stats == old(service.tracker.stats)
    {
      closing := None;
      if service == null || !service.running {
        return Response(400, Failure("Service not running")), closing;
      }
      var error := service.StopSession(now);
      closing := error;
      resp := StopResponse(true, true, error);
    }

    /** `get_status`: while a service runs, the tracker's summary (which
        writes `total_time_seconds`), renamed; zeros otherwise. */
    method GetStatus(now: int) returns (resp: Response)
      modifies if service == null then {} else {service.tracker}
      ensures service != null && service.running ==>
        resp == Response(200, StatusBody(true, true, Summary(old(service.tracker.stats), now).entries))
        && service.tracker.stats
          == old(service.tracker.stats).(totalTimeSeconds := now - old(service.tracker.stats.sessionStart))
      ensures !(service != null && service.running) ==>
        resp == Response(200, StatusBody(service != null, false, map[]))
        && (service != null ==> service.tracker.stats == old(service.tracker.stats))
    {
      if service == null {
        return Response(200, StatusBody(false, false, map[]));
      }
      if !service.running {
        return Response(200, StatusBody(true, false, map[]));
      }
      var summary := service.tracker.GetSummary(now);
      resp := Response(200, StatusBody(true, true, summary.entries));
    }

    /** `schedule_service`: check the body, then set up a scheduler with the
        interval and duration read from it; `setup` says how far the setup
        got before anything raised. */
    method ScheduleService(data: Value, setup: Setup) returns (resp: Response)
      modifies this
      ensures resp == ScheduleResponse(CheckSchedule(data), setup)
      ensures scheduler == SchedulerAfter(old(scheduler), CheckSchedule(data), setup)
      ensures service == old(service) && threadsLaunched == old(threadsLaunched)
    {
      var request := CheckSchedule(data);
      resp := ScheduleResponse(request, setup);
      if request.Params? {
        match setup
        case SetupFailed(_) =>
        case ScheduleFailed(_) =>
          scheduler := Some(Scheduler(None, false));
        case StartFailed(_) =>
          scheduler := Some(Scheduler(Some((request.interval, request.duration)), false));
        case SetUp =>
          scheduler := Some(Scheduler(Some((request.interval, request.duration)), true));
      }
    }
  }
}
