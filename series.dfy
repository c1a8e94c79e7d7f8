/** The observations tool of src/mcp_fred/servers/series.py: builds the query,
    previews it to learn its size, and either answers inline through the output
    handler or, above the configured row threshold, schedules a background job
    that writes the result to a file. The data API, the output handler and the
    token estimator are parameters; the job manager and worker are the stand-ins
    of module Jobs. */
module Series {
  import opened Wrappers
  import opened Common
  import opened Jobs
  import opened Settings

  /** The observation query arguments of `fred_series_observations`. */
  datatype ObservationArgs = ObservationArgs(
    seriesId: string,
    observationStart: Option<string>,
    observationEnd: Option<string>,
    limit: Option<int>,
    offset: Option<int>,
    units: Option<string>,
    frequency: Option<string>,
    aggregationMethod: Option<string>)

  /** `series_api.get_series_observations(series_id, params=...)`: a page, or what it raised. */
  type ObservationsApi = (string, Option<map<string, Json>>) -> Result<Page, Raised>

  /** `ResultOutputHandler.handle`: the payload it returns, or what it raised. */
  type Handler = HandlerCall -> Result<Json, Raised>

  /** The keys the query may carry. */
  predicate QueryKey(k: string) {
    k in {"observation_start", "observation_end", "limit", "offset", "units", "frequency", "aggregation_method"}
  }

  /** The query dict, built key by key: a text argument is sent when non-empty,
      `limit` and `offset` whenever they are given (zero included). */
  method BuildObservationParams(args: ObservationArgs) returns (params: map<string, Json>)
    ensures forall k :: k in params ==> QueryKey(k)
    ensures ("observation_start" in params) == Truthy(args.observationStart)
    ensures "observation_start" in params ==> params["observation_start"] == JStr(args.observationStart.value)
    ensures ("observation_end" in params) == Truthy(args.observationEnd)
    ensures "observation_end" in params ==> params["observation_end"] == JStr(args.observationEnd.value)
    ensures ("limit" in params) == args.limit.Some?
    ensures "limit" in params ==> params["limit"] == JInt(args.limit.value)
    ensures ("offset" in params) == args.offset.Some?
    ensures "offset" in params ==> params["offset"] == JInt(args.offset.value)
    ensures ("units" in params) == Truthy(args.units)
    ensures "units" in params ==> params["units"] == JStr(args.units.value)
    ensures ("frequency" in params) == Truthy(args.frequency)
    ensures "frequency" in params ==> params["frequency"] == JStr(args.frequency.value)
    ensures ("aggregation_method" in params) == Truthy(args.aggregationMethod)
    ensures "aggregation_method" in params ==> params["aggregation_method"] == JStr(args.aggregationMethod.value)
  {
    params := map[];
    if Truthy(args.observationStart) {
      params := params["observation_start" := JStr(args.observationStart.value)];
    }
    if Truthy(args.observationEnd) {
      params := params["observation_end" := JStr(args.observationEnd.value)];
    }
    if args.limit.Some? {
      params := params["limit" := JInt(args.limit.value)];
    }
    if args.offset.Some? {
      params := params["offset" := JInt(args.offset.value)];
    }
    if Truthy(args.units) {
      params := params["units" := JStr(args.units.value)];
    }
    if Truthy(args.frequency) {
      params := params["frequency" := JStr(args.frequency.value)];
    }
    if Truthy(args.aggregationMethod) {
      params := params["aggregation_method" := JStr(args.aggregationMethod.value)];
    }
  }

  /** The preview query: the same filters, but a single row. */
  function PreviewParams(params: map<string, Json>): (p: map<string, Json>)
    ensures p.Keys == params.Keys + {"limit"} && p["limit"] == JInt(1)
    ensures forall k :: k in params && k != "limit" ==> p[k] == params[k]
  {
    params["limit" := JInt(1)]
  }

  /** `params or None`: an empty query is sent as no query at all. */
  function OrNone(params: map<string, Json>): (r: Option<map<string, Json>>)
    ensures r.None? <==> params == map[]
    ensures r.Some? ==> r.value == params
  {
    if params == map[] then None else Some(params)
  }

  /** The rows a request asks for: its limit when given, otherwise the total the
      preview reports, otherwise the preview's own row count. */
  function RequestedRows(limit: Option<int>, preview: Page): (rows: int)
    ensures limit.Some? ==> rows == limit.value
    ensures limit.None? && preview.count.Some? ==> rows == preview.count.value
    ensures limit.None? && preview.count.None? ==> rows == |preview.records|
  {
    if limit.Some? then limit.value
    else if preview.count.Some? then preview.count.value
    else |preview.records|
  }

  function Max(a: int, b: int): int {
    if a >= b then a else b
  }

  function Min(a: int, b: int): int {
    if a <= b then a else b
  }

  /** `max(10, min(900, max(1, rows // 2000) * 15))` (`//` floors, as `/` does
      here for a positive divisor). */
  function EstimatedTime(rows: int): int {
    Max(10, Min(900, Max(1, rows / 2000) * 15))
  }

  /** The estimate is a whole number of 15-second steps between 15 seconds and 15
      minutes (so the floor of 10 never applies), it never decreases as the row
      count grows, it is 15 seconds below 4,000 rows and 15 minutes from 120,000 rows. */
  lemma EstimatedTimeBounds(rows: int, more: int)
    requires rows <= more
    ensures 15 <= EstimatedTime(rows) <= 900 && EstimatedTime(rows) % 15 == 0
    ensures EstimatedTime(rows) <= EstimatedTime(more)
    ensures rows < 4000 ==> EstimatedTime(rows) == 15
    ensures rows >= 120_000 ==> EstimatedTime(rows) == 900
  {
    Div2000Monotone(rows, more);
    if rows >= 120_000 {
      Div2000Monotone(120_000, rows);
    }
    if rows < 4000 {
      Div2000Monotone(rows, 3999);
    }
  }

  lemma Div2000Monotone(a: int, b: int)
    requires a <= b
    ensures a / 2000 <= b / 2000
  {
    assert 2000 * (a / 2000) + a % 2000 == a;
    assert 2000 * (b / 2000) + b % 2000 == b;
  }

  /** What a scheduled observations job will do when the worker runs it. */
  datatype ObservationsRunner = ObservationsRunner(
    jobId: string,
    seriesId: string,
    params: map<string, Json>,
    format: string,
    project: string,
    filename: Option<string>)

  /** The handler call the job makes: the whole result, written to a file of the
      job's project under "series", tagged with the job id. */
  function JobHandlerCall(runner: ObservationsRunner, page: Page): HandlerCall {
    HandlerCall(PageData(page), "series_observations", "file", runner.format, Some(runner.project),
                runner.filename, Some(|page.records|), None, Some("series"), Some(runner.jobId))
  }

  /** The job runner's outcome: complete with the handler's payload when the fetch
      and the file write both succeed; otherwise fail with the failure record of
      what was raised (the API error's own record, or a `JOB_ERROR` record). */
  function RunObservations(runner: ObservationsRunner, api: ObservationsApi, handle: Handler): (u: JobUpdate)
    ensures api(runner.seriesId, OrNone(runner.params)).Err? ==>
              u == Fail(FailureRecord(api(runner.seriesId, OrNone(runner.params)).error))
    ensures api(runner.seriesId, OrNone(runner.params)).Ok? ==>
              var call := JobHandlerCall(runner, api(runner.seriesId, OrNone(runner.params)).value);
              && call.output == "file" && call.jobId == Some(runner.jobId) && call.project == Some(runner.project)
              && (handle(call).Ok? ==> u == Complete(handle(call).value))
              && (handle(call).Err? ==> u == Fail(FailureRecord(handle(call).error)))
  {
    match api(runner.seriesId, OrNone(runner.params))
    case Err(e) => Fail(FailureRecord(e))
    case Ok(page) =>
      match handle(JobHandlerCall(runner, page))
      case Err(e) => Fail(FailureRecord(e))
      case Ok(payload) => Complete(payload)
  }

  /** The worker running a scheduled job: the job, unless already finished or
      cancelled, ends completed or failed. */
  method ExecuteObservationsJob(jm: JobManager, runner: ObservationsRunner, api: ObservationsApi, handle: Handler, now: int)
    requires jm.Valid()
    modifies jm
    ensures jm.Valid()
    ensures var k := IndexOf(old(jm.jobs), runner.jobId);
            jm.jobs == if k.None? || old(jm.jobs)[k.value].status.IsTerminal() then old(jm.jobs)
                       else old(jm.jobs)[k.value := Updated(old(jm.jobs)[k.value], RunObservations(runner, api, handle), now)]
    ensures IndexOf(old(jm.jobs), runner.jobId).Some? ==>
              Lookup(jm.jobs, runner.jobId).Some? && Lookup(jm.jobs, runner.jobId).value.status.IsTerminal()
  {
    var update := RunObservations(runner, api, handle);
    jm.Apply(runner.jobId, update, now);
    var k := IndexOf(old(jm.jobs), runner.jobId);
    if k.Some? {
      assert |jm.jobs| == |old(jm.jobs)| && jm.jobs[k.value].jobId == runner.jobId;
      IndexOfDistinct(jm.jobs, runner.jobId, k.value);
    }
  }

  /** The progress recorded on a new job: its size, its project and its request. */
  function ObservationsProgress(seriesId: string, params: map<string, Json>, project: string, rows: int): map<string, Json> {
    map["estimated_total" := JInt(rows), "project" := JStr(project),
        "request" := JObj(map["tool" := JStr("fred_series_observations"),
                              "series_id" := JStr(seriesId), "params" := JObj(params)])]
  }

  /** The acknowledgement returned for a scheduled job. */
  function ObservationsAck(jobId: string, rows: int, project: string, seriesId: string): map<string, Json> {
    map["status" := JStr("accepted"),
        "job_id" := JStr(jobId),
        "message" := JStr("Large dataset detected. Processing in background..."),
        "estimated_rows" := JInt(rows),
        "estimated_time_seconds" := JInt(EstimatedTime(rows)),
        "output_mode" := JStr("file"),
        "project" := JStr(project),
        "series_id" := JStr(seriesId),
        "operation" := JStr("series_observations"),
        "check_status" := JStr("Use fred_job_status tool with this job_id")]
  }

  /** The acknowledgement names the job as accepted, in file mode, with a time
      estimate between 15 seconds and 15 minutes. */
  lemma ObservationsAckFacts(jobId: string, rows: int, project: string, seriesId: string)
    ensures var a := ObservationsAck(jobId, rows, project, seriesId);
            && a["status"] == JStr(Accepted.Value()) && a["job_id"] == JStr(jobId)
            && a["output_mode"] == JStr("file") && a["estimated_rows"] == JInt(rows)
            && a["estimated_time_seconds"].JInt? && 15 <= a["estimated_time_seconds"].i <= 900
  {
    EstimatedTimeBounds(rows, rows);
  }

  /** `_schedule_observations_job`: creates an accepted job, records its progress,
      starts the worker and queues the runner, then acknowledges. `newId` is the
      identifier the job manager draws. */
  method ScheduleObservationsJob(
    jm: JobManager, worker: BackgroundWorker<ObservationsRunner>, newId: string, now: int,
    seriesId: string, params: map<string, Json>, project: string, filename: Option<string>,
    format: string, rows: int)
    returns (ack: map<string, Json>)
    requires jm.Valid() && newId !in jm.Ids()
    modifies jm, worker
    ensures jm.Valid()
    ensures jm.jobs == old(jm.jobs) + [Job(newId, Accepted, ObservationsProgress(seriesId, params, project, rows), None, None, 0, now, now)]
    ensures worker.started
    ensures worker.queue == old(worker.queue) + [(newId, ObservationsRunner(newId, seriesId, params, format, project, filename))]
    ensures ack == ObservationsAck(newId, rows, project, seriesId)
  {
    var job := jm.CreateJob(newId, now);
    IndexOfDistinct(jm.jobs, newId, |jm.jobs| - 1);
    var progress := ObservationsProgress(seriesId, params, project, rows);
    assert map[] + progress == progress;
    jm.UpdateProgress(newId, ObservationsProgress(seriesId, params, project, rows), now);
    worker.Start();
    worker.Submit(newId, ObservationsRunner(newId, seriesId, params, format, project, filename));
    ack := ObservationsAck(newId, rows, project, seriesId);
  }

  /** `fred_series_observations`. API errors are formatted, other exceptions
      propagate; the job manager and worker change only on the job path. */
  method FredSeriesObservations(
    args: ObservationArgs, output: Option<string>, format: Option<string>,
    project: Option<string>, filename: Option<string>,
    config: Config, api: ObservationsApi, estimator: seq<Json> -> nat,
    jm: JobManager, worker: BackgroundWorker<ObservationsRunner>, newId: string, now: int)
    returns (resp: Response)
    requires jm.Valid() && newId !in jm.Ids()
    modifies jm, worker
    ensures jm.Valid()
    ensures var params := ObservationParams(args);
            var preview := api(args.seriesId, Some(PreviewParams(params)));
            var rows := if preview.Ok? then RequestedRows(args.limit, preview.value) else 0;
            var toJob := preview.Ok? && rows > config.jobRowThreshold;
            var proj := OrElse(project, config.defaultProject);
            && (preview.Err? ==> resp == Caught(preview.error))
            && (!toJob ==> jm.jobs == old(jm.jobs) && worker.queue == old(worker.queue) && worker.started == old(worker.started))
            && (toJob ==>
                  && resp == Direct(ObservationsAck(newId, rows, proj, args.seriesId))
                  && jm.jobs == old(jm.jobs) + [Job(newId, Accepted, ObservationsProgress(args.seriesId, params, proj, rows), None, None, 0, now, now)]
                  && worker.started
                  && worker.queue == old(worker.queue) + [(newId, ObservationsRunner(newId, args.seriesId, params, OrElse(format, "csv"), proj, filename))])
            && (preview.Ok? && !toJob ==>
                  var fetched := api(args.seriesId, OrNone(params));
                  && (fetched.Err? ==> resp == Caught(fetched.error))
                  && (fetched.Ok? ==>
                        var items := fetched.value.records;
                        resp == Delegated(SmartOutput(PageData(fetched.value), "series_observations",
                                                      Some(ExtractOutputOptions(output, format, project, filename)),
                                                      Some(|items|), Some(Tokens(items, estimator)),
                                                      Some("series"), None))))
  {
    var params := BuildObservationParams(args);
    ObservationParamsAgree(args, params);
    var preview := api(args.seriesId, Some(PreviewParams(params)));
    if preview.Err? {
      return Caught(preview.error);
    }
    var rows := RequestedRows(args.limit, preview.value);
    if rows > config.jobRowThreshold {
      var ack := ScheduleObservationsJob(jm, worker, newId, now, args.seriesId, params,
                                         OrElse(project, config.defaultProject), filename,
                                         OrElse(format, "csv"), rows);
      return Direct(ack);
    }
    var fetched := api(args.seriesId, OrNone(params));
    if fetched.Err? {
      return Caught(fetched.error);
    }
    var tokens := EstimateTokens(fetched.value.records, estimator);
    var options := OutputOptions(OrElse(output, "auto"), OrElse(format, "csv"), project, filename);
    resp := Delegated(SmartOutput(PageData(fetched.value), "series_observations", Some(options),
                                  Some(|fetched.value.records|), Some(tokens), Some("series"), None));
  }

  /** The query `BuildObservationParams` builds, as a value. */
  function ObservationParams(args: ObservationArgs): map<string, Json> {
    var m0: map<string, Json> := map[];
    var m1 := if Truthy(args.observationStart) then m0["observation_start" := JStr(args.observationStart.value)] else m0;
    var m2 := if Truthy(args.observationEnd) then m1["observation_end" := JStr(args.observationEnd.value)] else m1;
    var m3 := if args.limit.Some? then m2["limit" := JInt(args.limit.value)] else m2;
    var m4 := if args.offset.Some? then m3["offset" := JInt(args.offset.value)] else m3;
    var m5 := if Truthy(args.units) then m4["units" := JStr(args.units.value)] else m4;
    var m6 := if Truthy(args.frequency) then m5["frequency" := JStr(args.frequency.value)] else m5;
    if Truthy(args.aggregationMethod) then m6["aggregation_method" := JStr(args.aggregationMethod.value)] else m6
  }

  /** Any query with the key-by-key description of `BuildObservationParams` is this one. */
  lemma ObservationParamsAgree(args: ObservationArgs, params: map<string, Json>)
    requires forall k :: k in params ==> QueryKey(k)
    requires ("observation_start" in params) == Truthy(args.observationStart)
    requires "observation_start" in params ==> params["observation_start"] == JStr(args.observationStart.value)
    requires ("observation_end" in params) == Truthy(args.observationEnd)
    requires "observation_end" in params ==> params["observation_end"] == JStr(args.observationEnd.value)
    requires ("limit" in params) == args.limit.Some?
    requires "limit" in params ==> params["limit"] == JInt(args.limit.value)
    requires ("offset" in params) == args.offset.Some?
    requires "offset" in params ==> params["offset"] == JInt(args.offset.value)
    requires ("units" in params) == Truthy(args.units)
    requires "units" in params ==> params["units"] == JStr(args.units.value)
    requires ("frequency" in params) == Truthy(args.frequency)
    requires "frequency" in params ==> params["frequency"] == JStr(args.frequency.value)
    requires ("aggregation_method" in params) == Truthy(args.aggregationMethod)
    requires "aggregation_method" in params ==> params["aggregation_method"] == JStr(args.aggregationMethod.value)
    ensures params == ObservationParams(args)
  {
    var q := ObservationParams(args);
    assert forall k :: k in q ==> QueryKey(k);
    assert forall k :: k in q <==> k in params;
    assert forall k :: k in q ==> q[k] == params[k];
  }
}
