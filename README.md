# mcp-fred tool core in Dafny

This project models the core of the mcp-fred server. That server lets a client
query the FRED economic database and keep the results on disk, grouped by project.
The project covers five parts of it:

- **Job tools** (`fred_job_list`, `fred_job_status`, `fred_job_cancel`). They show
  and cancel background jobs. `fred_job_list` validates an optional status filter,
  sorts the jobs by their last update with the newest first, filters, counts and
  pages them.
- **Project tools** (`fred_project_create`, `_gather_project_metadata`).
  `fred_project_create` checks the name and creates the project directory, six
  subdirectories and a metadata file. `_gather_project_metadata` walks a project and
  totals its files.
- **The project-file listing** (`fred_project_files`). It runs a fixed chain of
  argument checks, then walks the files, sorts them by name, size or modification
  time, and pages them with Python slice semantics.
- **The observations tool** (`fred_series_observations`). It builds a query, asks
  for a one-row preview to learn the result size, and either answers inline through
  the output handler or, above the row threshold, schedules a background job.
- **The geographic data tools** (`fred_maps_shapes`, `fred_maps_regional_data`,
  `fred_maps_series_data`). They default to file output, and file output always
  becomes a background job.

Shared pieces are modelled once:

- the output options and their defaults;
- the hand-off to the output handler (`smart_output`);
- API-error formatting;
- record preparation and token estimation.

Modules:

- `Wrappers` holds `Option`, `Result`, a JSON value type and Python truthiness.
- `Ordering` holds Python's string order and a stable keyed sort (Python's
  `sorted` / `list.sort`, with `reverse=True` included).
- `Slicing` holds `s[start:stop]`.
- `Storage` is the storage directory, as a class whose sets of paths change in place.
- `Jobs` has the job manager and background worker that the tools call. Their own
  source is not part of this model, so the classes are stand-ins: a job list kept in
  insertion order, a start flag and a submission queue.
- `Common`, `Admin`, `ProjectFiles`, `Series` and `Maps` follow the source files.
- `Settings` holds the two settings the tools read.

Outside effects become parameters:

- the FRED API, the output handler and the token estimator are functions;
- the clock is an integer `now`, in microseconds since the Unix epoch;
- the new job id is `newId`;
- the directory walk is a sequence of probes in walk order.

## Model

| member | source | states |
|---|---|---|
| Common.ExtractOutputOptions | src/mcp_fred/servers/common.py:58-70 | An absent or empty mode or format becomes "auto" or "csv". A non-empty one is kept. Project and file name pass through. The resulting mode and format are never empty. |
| Common.ExtractNothingIsDefault | src/mcp_fred/servers/common.py:15-22 | Extracting from no arguments gives exactly the declared `OutputOptions()` defaults. |
| Common.ExtractIdempotent | src/mcp_fred/servers/common.py:58-70 | Extracting again from already extracted options returns them unchanged. |
| Common.SmartOutputDefaults | src/mcp_fred/servers/common.py:25-55 | Passing no options is the same as passing `OutputOptions()`. The handler then gets mode "auto", format "csv", and no project or file name. |
| Common.FormatApiError | src/mcp_fred/servers/common.py:73-82 | An API error is returned as its own dict. Any other error becomes `{"error": {"code": "API_ERROR", "message": str(error)}}` with no details. |
| Common.Caught | src/mcp_fred/servers/series.py:301-302 | A `FREDAPIError` raised inside a data tool becomes its formatted record. Any other exception propagates. |
| Common.PrepareRecords | src/mcp_fred/servers/series.py:59-67 | One record per item, in order: the model dump for a model, the item itself otherwise. The loop is proved against `Prepared`. |
| Common.EstimateTokens | src/mcp_fred/servers/series.py:70-76 | No items gives 0, without asking the estimator. Otherwise the result is the estimator's figure for the prepared records. |
| Jobs.FailureRecord | src/mcp_fred/servers/series.py:353-362 | A job fails with the API error's own dict when a `FREDAPIError` was raised. Otherwise it fails with exactly `{"code": "JOB_ERROR", "message": str(exc)}`. |
| Jobs.IndexOf | src/mcp_fred/servers/admin.py:274 | A found position holds the id. When nothing is found, no stored job has that id. |
| Jobs.JobManager.CreateJob | src/mcp_fred/servers/series.py:320 | A new job is appended with a fresh id, status accepted, empty progress and no result or error. Ids stay distinct. |
| Jobs.JobManager.UpdateProgress | src/mcp_fred/servers/series.py:321-330 | The given entries are merged into the job's progress and its update time is set. Every other job is unchanged. |
| Jobs.JobManager.Apply | src/mcp_fred/servers/series.py:352-362 | Completing or failing a job that is not terminal records the payload or error. A missing or terminal job is left untouched. |
| Jobs.JobManager.GetJob | src/mcp_fred/servers/admin.py:274 | Returns the stored job with that id, or nothing exactly when no job has it. |
| Jobs.JobManager.CancelJob | src/mcp_fred/servers/admin.py:376 | Returns true exactly when the job exists and is not terminal; that job then becomes cancelled. Otherwise nothing changes. The reason is not stored. |
| Jobs.BackgroundWorker.Submit | src/mcp_fred/servers/series.py:364 | The (job id, runner) pair is appended to the queue. |
| Ordering.SortBy | src/mcp_fred/servers/admin.py:326-327 | The result is a permutation of the input (same multiset), ordered by the key: ascending, or descending for `reverse=True`. |
| Ordering.SortByStable | src/mcp_fred/tools/project_files.py:97-104 | The sort is stable: for every key, the elements with that key appear in the result in their input order, with `reverse=True` as well. Files of equal size or time, and jobs updated at the same moment, keep their order. |
| Slicing.WindowSlice | src/mcp_fred/tools/project_files.py:168-170 | For non-negative offset and limit, `s[offset:offset+limit]` is the clamped run starting at offset and holds at most `limit` elements. Without a limit it runs to the end. |
| Slicing.PySliceMembers | src/mcp_fred/servers/admin.py:334-335 | A slice holds only elements of the list it was cut from. |
| Storage.Volume.Mkdir | src/mcp_fred/servers/admin.py:525-527 | `mkdir(parents=True, exist_ok=True)`: the path and every ancestor exist afterwards. |
| Admin.AllowedStatusesAreSortedStatuses | src/mcp_fred/servers/admin.py:317-324 | The "allowed" list in the invalid-filter error is strictly increasing in Python's string order. It holds exactly the accepted filters, and these match the job status values one to one. |
| Admin.JobList | src/mcp_fred/servers/admin.py:316-342 | The call fails exactly when a status filter is given and unknown, and the error code is then `INVALID_STATUS_FILTER`. Otherwise the page echoes offset and limit. |
| Admin.JobListOrdered | src/mcp_fred/servers/admin.py:326-327 | Each job on a page was updated no earlier than every job after it. |
| Admin.JobListFiltered | src/mcp_fred/servers/admin.py:330-331 | With a filter, every job on the page has that status. |
| Admin.JobListFilteredCount | src/mcp_fred/servers/admin.py:330-333 | With a filter, the listed jobs are exactly the stored jobs with that status (as a multiset), and `count` is their number. |
| Admin.ListedWithStatusPermutes | src/mcp_fred/servers/admin.py:326-331 | Sorting before filtering loses and adds no job. |
| Admin.JobListUnfiltered | src/mcp_fred/servers/admin.py:326-333 | Without a filter every stored job is listed once, and `count` is the number of stored jobs. |
| Admin.JobListCountIgnoresPaging | src/mcp_fred/servers/admin.py:333-335 | The count is taken before slicing, so it does not depend on limit or offset. |
| Admin.JobListPage | src/mcp_fred/servers/admin.py:334-335 | For non-negative paging the page is the listed jobs from `offset`, with at most `limit` of them. |
| Admin.SingleMatchListed | src/mcp_fred/servers/admin.py:326-331 | When one stored job has the status, the filtered list is that job alone. |
| Admin.JobListSingleMatch | src/mcp_fred/servers/admin.py:316-342 | When one stored job has a known status, filtering on it gives count 1 and a page of that job. |
| Admin.JobListFilterExample | src/mcp_fred/servers/admin.py:330-331 | With an accepted job followed by a completed job, filtering on "completed" lists only the second. |
| Admin.WithStatusAll | src/mcp_fred/servers/admin.py:330-331 | Every job the filter keeps has the filtered status. |
| Admin.FredJobStatus | src/mcp_fred/servers/admin.py:257-291 | Returns `JOB_NOT_FOUND` exactly when no job has the id. Otherwise the response is exactly the handler call for the stored job with that id, serialised, with operation "job_status", default options (mode "auto", format "csv") and one row. |
| Admin.FredJobList | src/mcp_fred/servers/admin.py:298-352 | An invalid filter returns its error. Otherwise count, offset, limit and the serialised page go to the handler under "jobs", with the page size as row estimate and the default output options (mode "auto", format "csv", no project or file name). |
| Admin.FredJobCancel | src/mcp_fred/servers/admin.py:359-399 | When the manager does not cancel, the result is `JOB_NOT_FOUND` and nothing changes. Otherwise the job is cancelled and `{job_id, status: "cancelled", reason}` goes to the handler as "job_cancel" with default options (mode "auto", format "csv", no project or file name), one row and the "jobs" subdirectory. |
| Admin.ProjectNameChars | src/mcp_fred/servers/admin.py:27 | A name is valid exactly when it is non-empty and every character is an ASCII letter, digit, `_` or `-`. |
| Admin.FredProjectCreate | src/mcp_fred/servers/admin.py:485-553 | An invalid name gives `INVALID_PROJECT_NAME` and an existing project gives `PROJECT_EXISTS`; both leave storage unchanged. Otherwise the project directory is created first, then series, maps, releases, categories, sources and tags in that order. Then `.project.json` records the project, the time and that list. |
| Admin.GatherProjectMetadata | src/mcp_fred/servers/admin.py:454-478 | The one-pass loop yields the file count, the total size of the files that stat, and their latest modification time. |
| Admin.LatestModifiedIsMaximum | src/mcp_fred/servers/admin.py:460-471 | There is no latest time exactly when no file could be stat-ed. Otherwise it is one file's time, and no stat-ed file is later. |
| Admin.FileCountCoversStated | src/mcp_fred/servers/admin.py:460-467 | Stat-ed files ≤ counted files ≤ walked entries. |
| Admin.UnstatableFileCounted | src/mcp_fred/servers/admin.py:460-467 | A file whose `stat()` fails adds one to the count. It adds nothing to the size or the latest time. |
| ProjectFiles.AllowedListsAreSorted | src/mcp_fred/tools/project_files.py:17-61 | The "allowed" lists of the subdirectory, sort-field and sort-order errors are strictly increasing. Each holds exactly the accepted values. |
| ProjectFiles.ParseInt | src/mcp_fred/tools/project_files.py:64-73 | A missing value gives neither value nor error. A non-integer gives "an integer" and a negative one gives "a non-negative integer". An infinite float raises `OverflowError`, which is not caught and leaves the tool. Otherwise the value is the integer. Value and error never come together. |
| ProjectFiles.Lower | src/mcp_fred/tools/project_files.py:153 | Lower-casing keeps the length and lowers each ASCII letter. |
| ProjectFiles.LowerIdempotent | src/mcp_fred/tools/project_files.py:153-155 | Lowering twice equals lowering once, and "asc" and "desc" are already lower case. |
| ProjectFiles.FirstFailure | src/mcp_fred/tools/project_files.py:117-162 | There is no failure exactly when every check passes. |
| ProjectFiles.ValidateIsFirstFailure | src/mcp_fred/tools/project_files.py:117-162 | The early-return chain lists files exactly when all eleven checks pass. Otherwise it returns the error of the first failing check, in the tool's order: output options, operation, project present, name, project exists, subdirectory, target exists, sort field, sort order, limit, offset. |
| ProjectFiles.ValidPlan | src/mcp_fred/tools/project_files.py:110-162 | An accepted request names an existing project, and an existing known subdirectory if any. Its sort field and (lowered) order are known and default to "name" and "asc". Its limit and offset are absent or non-negative integers. |
| ProjectFiles.GatheredFromWalk | src/mcp_fred/tools/project_files.py:76-94 | Exactly one record per regular file whose `stat()` succeeds, each the rendering of a walked entry. |
| ProjectFiles.GatherFiles | src/mcp_fred/tools/project_files.py:76-94 | The loop skips non-files and files whose stat fails, keeping walk order. It is proved against `Gathered`. |
| ProjectFiles.SortFilesOrder | src/mcp_fred/tools/project_files.py:97-104 | The sorted files are a permutation of the input. They are ordered by relative path, size or modification time, ascending, or descending for "desc". |
| ProjectFiles.ListingCount | src/mcp_fred/tools/project_files.py:164-165 | `count` is the number of stat-ed files before paging. |
| ProjectFiles.ListingWindow | src/mcp_fred/tools/project_files.py:168-170 | The page is the sorted files from `offset or 0`, with at most `limit` of them, or all the rest without a limit. |
| ProjectFiles.ListingMembers | src/mcp_fred/tools/project_files.py:164-170 | The page lists only gathered files. |
| ProjectFiles.FredProjectFiles | src/mcp_fred/tools/project_files.py:107-188 | A failed check returns its error; an overflowing `limit` or `offset` instead raises out of the tool (`OverflowRaised`). Otherwise the listing (project, subdirectory, total, offset, limit, page) goes on with the page size as row estimate and category "projects". |
| Series.BuildObservationParams | src/mcp_fred/servers/series.py:240-254 | Each text argument is sent under its key exactly when it is non-empty. `limit` and `offset` are sent whenever given, zero included. No other key appears. |
| Series.ObservationParamsAgree | src/mcp_fred/servers/series.py:240-254 | Any query meeting that key-by-key description is the one `ObservationParams` gives. |
| Series.PreviewParams | src/mcp_fred/servers/series.py:257-258 | The preview has the query's filters with `limit` forced to 1. |
| Series.OrNone | src/mcp_fred/servers/series.py:282 | An empty query is sent as no query. |
| Series.RequestedRows | src/mcp_fred/servers/series.py:260-261 | The size is the caller's limit when given, otherwise the preview's reported count, otherwise its row count. |
| Series.EstimatedTimeBounds | src/mcp_fred/servers/series.py:366 | The estimate is a multiple of 15 seconds between 15 and 900, so the floor of 10 never applies. It does not decrease as rows grow, is 15 below 4,000 rows, and is 900 from 120,000 rows. |
| Series.RunObservations | src/mcp_fred/servers/series.py:336-362 | The job completes with the handler's payload when the fetch and the file write both succeed. The write is in file mode, tagged with the job id. Otherwise the job fails with the failure record. |
| Series.ExecuteObservationsJob | src/mcp_fred/servers/series.py:336-362 | Running a queued job leaves it completed or failed, unless it was already terminal. |
| Series.ObservationsAckFacts | src/mcp_fred/servers/series.py:368-379 | The acknowledgement says accepted, names the job, says file mode and gives an estimate between 15 and 900 seconds. |
| Series.ScheduleObservationsJob | src/mcp_fred/servers/series.py:305-379 | One accepted job is added. Its progress records estimated total, project and request. The worker is started, the runner queued, and the acknowledgement returned. |
| Series.FredSeriesObservations | src/mcp_fred/servers/series.py:194-302 | A preview error is formatted or propagated. Above the threshold one job is scheduled, with project and format defaulted. Otherwise no job is made: the full query (or none) is fetched and its result goes to the handler with the extracted options, row count and token estimate under "series". |
| Maps.OutputMode | src/mcp_fred/servers/maps.py:172 | An absent or empty mode becomes "file". A given one is kept. |
| Maps.FileModeRouting | src/mcp_fred/servers/maps.py:172-176 | A call becomes a job exactly when the mode is missing, empty or "file". "auto" and "screen" are answered inline. |
| Maps.BuildRegionalParams | src/mcp_fred/servers/maps.py:289-303 | Each regional argument is sent under its key exactly when it is non-empty. No other key appears. |
| Maps.RegionalParamsAgree | src/mcp_fred/servers/maps.py:289-303 | Any query meeting that description is the one `RegionalParams` gives. |
| Maps.NoFilterSendsNoQuery | src/mcp_fred/servers/maps.py:319 | With no regional argument, the API gets no query at all. |
| Maps.RegionalQueryOf | src/mcp_fred/servers/maps.py:319 | The regional fetch carries the query, or none when it is empty. |
| Maps.RunMaps | src/mcp_fred/servers/maps.py:97-124 | A maps job completes with the handler's payload only when the fetch and the write both succeed. The write is in file mode under "maps", with record count and job id. Otherwise the job fails with the failure record. |
| Maps.ExecuteMapsJob | src/mcp_fred/servers/maps.py:97-124 | Running a queued maps job leaves it completed or failed, unless it was already terminal. |
| Maps.ScheduleMapsJob | src/mcp_fred/servers/maps.py:73-135 | One accepted job is added. Its progress records the project and the request `fred_maps_<operation>` with its params. The worker is started, the runner queued, and the acknowledgement returned. |
| Maps.MapsData | src/mcp_fred/servers/maps.py:172-204 | File mode (the default) schedules a job and fetches nothing. Other modes leave the jobs alone and fetch now. The result goes to the handler as "maps_<operation>" with the defaulted project and format. |
| Maps.FredMapsShapes | src/mcp_fred/servers/maps.py:142-206 | File mode starts the worker and queues a shapes job recording `{"shape": shape}`. Otherwise no job is made: the shapes are fetched and handed on as "maps_shapes" with the caller's mode, format "csv" by default, the default project, and the record count and token estimate. |
| Maps.FredMapsRegionalData | src/mcp_fred/servers/maps.py:249-340 | File mode starts the worker and queues a job with the built query. Otherwise no job is made: that query (or none) is fetched and handed on as "maps_regional_data" with the caller's mode, format "csv" by default, the default project, and the record count and token estimate. |
| Maps.FredMapsSeriesData | src/mcp_fred/servers/maps.py:347-409 | File mode starts the worker and queues a job recording `{"series_id": id}`. Otherwise no job is made: the series is fetched and handed on as "maps_series_data" with the caller's mode, format "csv" by default, the default project, and the record count and token estimate. |

## Left out

- Job manager and background worker: `utils/job_manager.py` and `utils/background_worker.py` are not part of this model.
  - `Jobs.JobManager` and `Jobs.BackgroundWorker` hold only what the tools rely on.
  - Jobs are kept in insertion order, as in a dict.
  - Job ids are drawn fresh by the caller (`newId`).
  - Cancelling a missing or terminal job returns false, following the lifecycle in which terminal states are final.
  - Retention purging, retries, locking and asynchronous execution are not modelled. A queued runner is run only when `ExecuteObservationsJob` / `ExecuteMapsJob` is called.
  - Series and maps jobs sit in two worker queues with different runner types. The source has one shared worker.
- The output handler, the token estimator and the FRED and GeoFRED APIs are parameters.
  - The handler is called only in job runners. Inline answers are the `HandlerCall` that `smart_output` makes.
  - An API response is its reported count and the records the tool reads from it.
- Logging and progress reports through the request context (`ctx.debug`, `ctx.info`, `ctx.report_progress`) are left out.
- `tools/_common.py` (`prepare_output`, `success_response`, `unknown_operation`, `missing_parameter`, `invalid_parameter`) is not part of this model.
  - `prepare_output` is a parameter, and its error is passed through as is.
  - `success_response` gets the listing value.
  - The shared error helpers are named error values.
- ProjectFiles.ParseInt: what `int(value)` accepts (strings with signs, spaces or underscores; floats; booleans) is an input: the argument is given as missing, converted to an integer, rejected with `TypeError`/`ValueError`, or overflowing (`OverflowError`, for an infinite float). The overflowing case is modelled as the `OverflowRaised` outcome, which stands for the exception leaving the tool.
- ProjectFiles.FredProjectFiles: `modified_at` is ISO-8601 text in the source and an integer here: microseconds since the Unix epoch, the resolution `datetime.fromtimestamp` keeps. For UTC times with four-digit years, sorting by the integer gives the order of the ISO text, because `isoformat` leaves out a zero fraction and "+" sorts before ".".
- ProjectFiles.Lower: only ASCII letters are lowered. Non-ASCII case mapping is not modelled.
- ProjectFiles.FredProjectFiles: the directory walk (`rglob`) is a sequence given by the caller. The model does not tie it to the storage entries.
- ProjectFiles.FredProjectFiles: `_sort_files` sorts the list in place; the model sorts a value.
- Admin.JobList: stored jobs are not serialised with ISO timestamps; `SerializeJob` keeps the integer times.
- Admin.FredProjectCreate: the project path text uses "/" joins of the root text. Path normalisation is not modelled.
- `fred_project_list` and `fred_maps_series_group` are not modelled (listing and sorting the project directories; a plain pass-through fetch). The per-project fold `_gather_project_metadata` is modelled.
- `servers/maps.py:53-70` repeats `_prepare_records` and `_estimate_tokens` from `servers/series.py` word for word; both are modelled once, in `Common`.
- Job routing and job errors are as the tool code has them:
  - `fred_series_observations` routes to a job only when the requested rows exceed `job_row_threshold`. No byte or duration estimate takes part.
  - The maps tools schedule a job in file mode whatever the result size, an empty result included.
  - `fred_job_cancel` reports any refused cancellation, of a missing or of a terminal job, as `JOB_NOT_FOUND`.
