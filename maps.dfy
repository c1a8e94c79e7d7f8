/** The geographic data tools of src/mcp_fred/servers/maps.py: shapes, regional
    data and series data. Unlike the observations tool they default to file
    output, and file output always goes through a background job; the other
    modes fetch and answer inline through the output handler. */
module Maps {
  import opened Wrappers
  import opened Common
  import opened Jobs
  import opened Settings

  /** One call of the maps API. */
  datatype MapsQuery =
    | ShapesQuery(shape: string)                               // `maps.get_shapes(shape)`
    | RegionalQuery(params: Option<map<string, Json>>)        // `maps.get_regional_data(params=...)`
    | SeriesDataQuery(seriesId: string)                        // `maps.get_series_data(series_id)`

  /** The maps API: for each call, the records the tool reads from the response
      (`shape_values`, `regional_data` or `series_data`) with the response, or what it raised. */
  type MapsApi = MapsQuery -> Result<Page, Raised>

  /** `ResultOutputHandler.handle`: the payload it returns, or what it raised. */
  type Handler = HandlerCall -> Result<Json, Raised>

  /** The output mode: the caller's, or "file" when absent or empty. */
  function OutputMode(output: Option<string>): (mode: string)
    ensures mode != ""
    ensures Truthy(output) ==> mode == output.value
    ensures !Truthy(output) ==> mode == "file"
  {
    OrElse(output, "file")
  }

  /** A call goes to a background job exactly when the caller asked for file
      output or gave no mode at all; "auto" and "screen" are answered inline. */
  lemma FileModeRouting(output: Option<string>)
    ensures OutputMode(output) == "file" <==> (!Truthy(output) || output.value == "file")
    ensures OutputMode(Some("auto")) != "file" && OutputMode(Some("screen")) != "file"
  {
  }

  /** The keys the regional data query may carry. */
  predicate RegionalKey(k: string) {
    k in {"series_group", "region_type", "date", "start_date", "frequency", "units", "season"}
  }

  datatype RegionalArgs = RegionalArgs(
    seriesGroup: Option<string>,
    regionType: Option<string>,
    date: Option<string>,
    startDate: Option<string>,
    frequency: Option<string>,
    units: Option<string>,
    season: Option<string>)

  /** The regional data query as a value: each argument under its key when non-empty. */
  function RegionalParams(args: RegionalArgs): map<string, Json> {
    var m0: map<string, Json> := map[];
    var m1 := if Truthy(args.seriesGroup) then m0["series_group" := JStr(args.seriesGroup.value)] else m0;
    var m2 := if Truthy(args.regionType) then m1["region_type" := JStr(args.regionType.value)] else m1;
    var m3 := if Truthy(args.date) then m2["date" := JStr(args.date.value)] else m2;
    var m4 := if Truthy(args.startDate) then m3["start_date" := JStr(args.startDate.value)] else m3;
    var m5 := if Truthy(args.frequency) then m4["frequency" := JStr(args.frequency.value)] else m4;
    var m6 := if Truthy(args.units) then m5["units" := JStr(args.units.value)] else m5;
    if Truthy(args.season) then m6["season" := JStr(args.season.value)] else m6
  }

  /** The query dict of `fred_maps_regional_data`, built key by key: each
      argument is sent under its own key exactly when it is non-empty. */
  method BuildRegionalParams(args: RegionalArgs) returns (params: map<string, Json>)
    ensures forall k :: k in params ==> RegionalKey(k)
    ensures Sent(params, "series_group", args.seriesGroup)
    ensures Sent(params, "region_type", args.regionType)
    ensures Sent(params, "date", args.date)
    ensures Sent(params, "start_date", args.startDate)
    ensures Sent(params, "frequency", args.frequency)
    ensures Sent(params, "units", args.units)
    ensures Sent(params, "season", args.season)
  {
    params := map[];
    if Truthy(args.seriesGroup) {
      params := params["series_group" := JStr(args.seriesGroup.value)];
    }
    if Truthy(args.regionType) {
      params := params["region_type" := JStr(args.regionType.value)];
    }
    if Truthy(args.date) {
      params := params["date" := JStr(args.date.value)];
    }
    if Truthy(args.startDate) {
      params := params["start_date" := JStr(args.startDate.value)];
    }
    if Truthy(args.frequency) {
      params := params["frequency" := JStr(args.frequency.value)];
    }
    if Truthy(args.units) {
      params := params["units" := JStr(args.units.value)];
    }
    if Truthy(args.season) {
      params := params["season" := JStr(args.season.value)];
    }
  }

  /** `key` carries `arg` exactly when `arg` is non-empty text. */
  predicate Sent(params: map<string, Json>, key: string, arg: Option<string>) {
    && (key in params <==> Truthy(arg))
    && (key in params ==> params[key] == JStr(arg.value))
  }

  /** Any query with the key-by-key description of `BuildRegionalParams` is `RegionalParams`. */
  lemma RegionalParamsAgree(args: RegionalArgs, params: map<string, Json>)
    requires forall k :: k in params ==> RegionalKey(k)
    requires Sent(params, "series_group", args.seriesGroup)
    requires Sent(params, "region_type", args.regionType)
    requires Sent(params, "date", args.date)
    requires Sent(params, "start_date", args.startDate)
    requires Sent(params, "frequency", args.frequency)
    requires Sent(params, "units", args.units)
    requires Sent(params, "season", args.season)
    ensures params == RegionalParams(args)
  {
    var q := RegionalParams(args);
    assert forall k :: k in q ==> RegionalKey(k);
    assert params.Keys == q.Keys;
  }

  /** With no filter at all, the API is called with no query rather than an empty one. */
  lemma NoFilterSendsNoQuery(args: RegionalArgs)
    requires !Truthy(args.seriesGroup) && !Truthy(args.regionType) && !Truthy(args.date)
    requires !Truthy(args.startDate) && !Truthy(args.frequency) && !Truthy(args.units) && !Truthy(args.season)
    ensures RegionalQueryOf(RegionalParams(args)) == RegionalQuery(None)
  {
  }

  /** `maps.get_regional_data(params=params or None)`. */
  function RegionalQueryOf(params: map<string, Json>): (q: MapsQuery)
    ensures q.RegionalQuery?
    ensures q.params.None? <==> params == map[]
    ensures q.params.Some? ==> q.params.value == params
  {
    RegionalQuery(if params == map[] then None else Some(params))
  }

  /** What a scheduled maps job will do when the worker runs it. */
  datatype MapsRunner = MapsRunner(
    jobId: string,
    operation: string,
    query: MapsQuery,
    format: string,
    project: string,
    filename: Option<string>)

  /** The handler call a maps job makes: the records written to a file of the
      job's project under "maps", with their count and token estimate. */
  function MapsJobHandlerCall(runner: MapsRunner, page: Page, estimator: seq<Json> -> nat): HandlerCall {
    HandlerCall(PageData(page), runner.operation, "file", runner.format, Some(runner.project),
                runner.filename, Some(|page.records|), Some(Tokens(page.records, estimator)),
                Some("maps"), Some(runner.jobId))
  }

  /** The maps job runner's outcome: complete with the handler's payload when the
      fetch and the file write both succeed, otherwise fail with the failure
      record of what was raised. */
  function RunMaps(runner: MapsRunner, api: MapsApi, estimator: seq<Json> -> nat, handle: Handler): (u: JobUpdate)
    ensures api(runner.query).Err? ==> u == Fail(FailureRecord(api(runner.query).error))
    ensures api(runner.query).Ok? ==>
              var call := MapsJobHandlerCall(runner, api(runner.query).value, estimator);
              && call.output == "file" && call.jobId == Some(runner.jobId) && call.subdir == Some("maps")
              && call.estimatedRows == Some(|api(runner.query).value.records|)
              && (handle(call).Ok? ==> u == Complete(handle(call).value))
              && (handle(call).Err? ==> u == Fail(FailureRecord(handle(call).error)))
  {
    match api(runner.query)
    case Err(e) => Fail(FailureRecord(e))
    case Ok(page) =>
      match handle(MapsJobHandlerCall(runner, page, estimator))
      case Err(e) => Fail(FailureRecord(e))
      case Ok(payload) => Complete(payload)
  }

  /** The worker running a scheduled maps job: the job, unless already finished
      or cancelled, ends completed or failed. */
  method ExecuteMapsJob(jm: JobManager, runner: MapsRunner, api: MapsApi, estimator: seq<Json> -> nat, handle: Handler, now: int)
    requires jm.Valid()
    modifies jm
    ensures jm.Valid()
    ensures var k := IndexOf(old(jm.jobs), runner.jobId);
            jm.jobs == if k.None? || old(jm.jobs)[k.value].status.IsTerminal() then old(jm.jobs)
                       else old(jm.jobs)[k.value := Updated(old(jm.jobs)[k.value], RunMaps(runner, api, estimator, handle), now)]
    ensures IndexOf(old(jm.jobs), runner.jobId).Some? ==>
              Lookup(jm.jobs, runner.jobId).Some? && Lookup(jm.jobs, runner.jobId).value.status.IsTerminal()
  {
    jm.Apply(runner.jobId, RunMaps(runner, api, estimator, handle), now);
    var k := IndexOf(old(jm.jobs), runner.jobId);
    if k.Some? {
      assert |jm.jobs| == |old(jm.jobs)| && jm.jobs[k.value].jobId == runner.jobId;
      IndexOfDistinct(jm.jobs, runner.jobId, k.value);
    }
  }

  /** The progress recorded on a new maps job: its project and its request. */
  function MapsProgress(operation: string, project: string, params: map<string, Json>): map<string, Json> {
    map["project" := JStr(project),
        "request" := JObj(map["tool" := JStr("fred_maps_" + operation), "params" := JObj(params)])]
  }

  /** The acknowledgement returned for a scheduled maps job. */
  function MapsAck(jobId: string, operation: string, project: string): map<string, Json> {
    map["status" := JStr("accepted"),
        "job_id" := JStr(jobId),
        "message" := JStr("Large map dataset detected. Processing in background..."),
        "operation" := JStr(operation),
        "project" := JStr(project),
        "check_status" := JStr("Use fred_job_status tool with this job_id")]
  }

  /** `_schedule_maps_job`: creates an accepted job, records its project and
      request, starts the worker and queues the runner, then acknowledges. */
  method ScheduleMapsJob(
    jm: JobManager, worker: BackgroundWorker<MapsRunner>, newId: string, now: int,
    operation: string, project: string, filename: Option<string>, format: string,
    params: map<string, Json>, query: MapsQuery)
    returns (ack: map<string, Json>)
    requires jm.Valid() && newId !in jm.Ids()
    modifies jm, worker
    ensures jm.Valid()
    ensures jm.jobs == old(jm.jobs) + [Job(newId, Accepted, MapsProgress(operation, project, params), None, None, 0, now, now)]
    ensures worker.started
    ensures worker.queue == old(worker.queue) + [(newId, MapsRunner(newId, operation, query, format, project, filename))]
    ensures ack == MapsAck(newId, operation, project)
  {
    var job := jm.CreateJob(newId, now);
    IndexOfDistinct(jm.jobs, newId, |jm.jobs| - 1);
    var progress := MapsProgress(operation, project, params);
    assert map[] + progress == progress;
    jm.UpdateProgress(newId, progress, now);
    worker.Start();
    worker.Submit(newId, MapsRunner(newId, operation, query, format, project, filename));
    ack := MapsAck(newId, operation, project);
  }

  /** The part the three data tools share once their query is known: file mode
      (the default) schedules a job; any other mode fetches now and hands the
      result to the output handler under "maps_" + the operation, with the
      project defaulted as well. */
  method MapsData(
    operation: string, params: map<string, Json>, query: MapsQuery,
    output: Option<string>, format: Option<string>, project: Option<string>, filename: Option<string>,
    config: Config, api: MapsApi, estimator: seq<Json> -> nat,
    jm: JobManager, worker: BackgroundWorker<MapsRunner>, newId: string, now: int)
    returns (resp: Response)
    requires jm.Valid() && newId !in jm.Ids()
    modifies jm, worker
    ensures jm.Valid()
    ensures var mode := OutputMode(output);
            var fmt := OrElse(format, "csv");
            var proj := OrElse(project, config.defaultProject);
            && (mode == "file" ==>
                  && resp == Direct(MapsAck(newId, operation, proj))
                  && jm.jobs == old(jm.jobs) + [Job(newId, Accepted, MapsProgress(operation, proj, params), None, None, 0, now, now)]
                  && worker.started
                  && worker.queue == old(worker.queue) + [(newId, MapsRunner(newId, operation, query, fmt, proj, filename))])
            && (mode != "file" ==>
                  && jm.jobs == old(jm.jobs) && worker.queue == old(worker.queue) && worker.started == old(worker.started)
                  && (api(query).Err? ==> resp == Caught(api(query).error))
                  && (api(query).Ok? ==>
                        var items := api(query).value.records;
                        resp == Delegated(SmartOutput(PageData(api(query).value), "maps_" + operation,
                                                      Some(OutputOptions(mode, fmt, Some(proj), filename)),
                                                      Some(|items|), Some(Tokens(items, estimator)),
                                                      Some("maps"), None))))
  {
    var mode := OutputMode(output);
    var fmt := OrElse(format, "csv");
    var proj := OrElse(project, config.defaultProject);
    if mode == "file" {
      var ack := ScheduleMapsJob(jm, worker, newId, now, operation, proj, filename, fmt, params, query);
      return Direct(ack);
    }
    var result := api(query);
    if result.Err? {
      return Caught(result.error);
    }
    var tokens := EstimateTokens(result.value.records, estimator);
    var options := OutputOptions(mode, fmt, Some(proj), filename);
    resp := Delegated(SmartOutput(PageData(result.value), "maps_" + operation, Some(options),
                                  Some(|result.value.records|), Some(tokens), Some("maps"), None));
  }

  /** `fred_maps_shapes`: the job records `{"shape": shape}` and fetches the shapes. */
  method FredMapsShapes(
    shape: string, output: Option<string>, format: Option<string>, project: Option<string>, filename: Option<string>,
    config: Config, api: MapsApi, estimator: seq<Json> -> nat,
    jm: JobManager, worker: BackgroundWorker<MapsRunner>, newId: string, now: int)
    returns (resp: Response)
    requires jm.Valid() && newId !in jm.Ids()
    modifies jm, worker
    ensures jm.Valid()
    ensures OutputMode(output) == "file" ==>
              && worker.started
              && resp == Direct(MapsAck(newId, "shapes", OrElse(project, config.defaultProject)))
              && worker.queue == old(worker.queue) + [(newId, MapsRunner(newId, "shapes", ShapesQuery(shape), OrElse(format, "csv"),
                                                                          OrElse(project, config.defaultProject), filename))]
              && jm.jobs == old(jm.jobs) + [Job(newId, Accepted, MapsProgress("shapes", OrElse(project, config.defaultProject),
                                                                               map["shape" := JStr(shape)]), None, None, 0, now, now)]
    ensures OutputMode(output) != "file" ==>
              && jm.jobs == old(jm.jobs) && worker.queue == old(worker.queue) && worker.started == old(worker.started)
              && (api(ShapesQuery(shape)).Err? ==> resp == Caught(api(ShapesQuery(shape)).error))
              && (api(ShapesQuery(shape)).Ok? ==>
                    var page := api(ShapesQuery(shape)).value;
                    resp == Delegated(SmartOutput(PageData(page), "maps_shapes",
                                                  Some(OutputOptions(OutputMode(output), OrElse(format, "csv"),
                                                                     Some(OrElse(project, config.defaultProject)), filename)),
                                                  Some(|page.records|), Some(Tokens(page.records, estimator)),
                                                  Some("maps"), None)))
  {
    resp := MapsData("shapes", map["shape" := JStr(shape)], ShapesQuery(shape), output, format, project, filename,
                     config, api, estimator, jm, worker, newId, now);
  }

  /** `fred_maps_regional_data`: the job records the built query and fetches with it (or with none when empty). */
  method FredMapsRegionalData(
    args: RegionalArgs, output: Option<string>, format: Option<string>, project: Option<string>, filename: Option<string>,
    config: Config, api: MapsApi, estimator: seq<Json> -> nat,
    jm: JobManager, worker: BackgroundWorker<MapsRunner>, newId: string, now: int)
    returns (resp: Response)
    requires jm.Valid() && newId !in jm.Ids()
    modifies jm, worker
    ensures jm.Valid()
    ensures var query := RegionalQueryOf(RegionalParams(args));
            && (OutputMode(output) == "file" ==>
                  && worker.started
                  && resp == Direct(MapsAck(newId, "regional_data", OrElse(project, config.defaultProject)))
                  && worker.queue == old(worker.queue) + [(newId, MapsRunner(newId, "regional_data", query, OrElse(format, "csv"),
                                                                              OrElse(project, config.defaultProject), filename))]
                  && jm.jobs == old(jm.jobs) + [Job(newId, Accepted, MapsProgress("regional_data", OrElse(project, config.defaultProject),
                                                                                   RegionalParams(args)), None, None, 0, now, now)])
            && (OutputMode(output) != "file" ==>
                  && jm.jobs == old(jm.jobs) && worker.queue == old(worker.queue) && worker.started == old(worker.started)
                  && (api(query).Err? ==> resp == Caught(api(query).error))
                  && (api(query).Ok? ==>
                        var page := api(query).value;
                        resp == Delegated(SmartOutput(PageData(page), "maps_regional_data",
                                                      Some(OutputOptions(OutputMode(output), OrElse(format, "csv"),
                                                                         Some(OrElse(project, config.defaultProject)), filename)),
                                                      Some(|page.records|), Some(Tokens(page.records, estimator)),
                                                      Some("maps"), None))))
  {
    var params := BuildRegionalParams(args);
    RegionalParamsAgree(args, params);
    var query := RegionalQueryOf(params);
    resp := MapsData("regional_data", params, query, output, format, project, filename,
                     config, api, estimator, jm, worker, newId, now);
  }

  /** `fred_maps_series_data`: the job records `{"series_id": id}` and fetches that series. */
  method FredMapsSeriesData(
    seriesId: string, output: Option<string>, format: Option<string>, project: Option<string>, filename: Option<string>,
    config: Config, api: MapsApi, estimator: seq<Json> -> nat,
    jm: JobManager, worker: BackgroundWorker<MapsRunner>, newId: string, now: int)
    returns (resp: Response)
    requires jm.Valid() && newId !in jm.Ids()
    modifies jm, worker
    ensures jm.Valid()
    ensures OutputMode(output) == "file" ==>
              && worker.started
              && resp == Direct(MapsAck(newId, "series_data", OrElse(project, config.defaultProject)))
              && worker.queue == old(worker.queue) + [(newId, MapsRunner(newId, "series_data", SeriesDataQuery(seriesId), OrElse(format, "csv"),
                                                                          OrElse(project, config.defaultProject), filename))]
              && jm.jobs == old(jm.jobs) + [Job(newId, Accepted, MapsProgress("series_data", OrElse(project, config.defaultProject),
                                                                               map["series_id" := JStr(seriesId)]), None, None, 0, now, now)]
    ensures OutputMode(output) != "file" ==>
              && jm.jobs == old(jm.jobs) && worker.queue == old(worker.queue) && worker.started == old(worker.started)
              && (api(SeriesDataQuery(seriesId)).Err? ==> resp == Caught(api(SeriesDataQuery(seriesId)).error))
              && (api(SeriesDataQuery(seriesId)).Ok? ==>
                    var page := api(SeriesDataQuery(seriesId)).value;
                    resp == Delegated(SmartOutput(PageData(page), "maps_series_data",
                                                  Some(OutputOptions(OutputMode(output), OrElse(format, "csv"),
                                                                     Some(OrElse(project, config.defaultProject)), filename)),
                                                  Some(|page.records|), Some(Tokens(page.records, estimator)),
                                                  Some("maps"), None)))
  {
    resp := MapsData("series_data", map["series_id" := JStr(seriesId)], SeriesDataQuery(seriesId), output, format, project, filename,
                     config, api, estimator, jm, worker, newId, now);
  }
}
