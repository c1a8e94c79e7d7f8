/** Job listing and project administration tools (src/mcp_fred/servers/admin.py). */
module Admin {
  import opened Wrappers
  import opened Ordering
  import opened Slicing
  import opened Common
  import opened Jobs
  import opened Storage

  // ---------------------------------------------------------------------------
  // Job tools
  // ---------------------------------------------------------------------------

  /** A status filter the job list accepts (`VALID_STATUSES` without `None`). */
  predicate KnownStatus(s: string) {
    s in {"accepted", "processing", "completed", "failed", "cancelled"}
  }

  /** `sorted(s for s in VALID_STATUSES if s)`, the list an invalid filter reports. */
  function AllowedStatuses(): seq<string> {
    ["accepted", "cancelled", "completed", "failed", "processing"]
  }

  /** The reported list is strictly increasing in Python's string order, and holds
      exactly the known statuses, which are exactly the values of the job states. */
  lemma AllowedStatusesAreSortedStatuses()
    ensures forall i, j :: 0 <= i < j < |AllowedStatuses()| ==> LexLess(AllowedStatuses()[i], AllowedStatuses()[j])
    ensures forall s :: s in AllowedStatuses() <==> KnownStatus(s)
    ensures forall st: JobStatus :: KnownStatus(st.Value())
    ensures forall s :: KnownStatus(s) ==> exists st: JobStatus :: st.Value() == s
  {
    var a := AllowedStatuses();
    assert LexLess(a[0], a[1]);
    assert LexLess(a[1], a[2]) by {
      assert a[1][1..] == "ancelled" && a[2][1..] == "ompleted";
      assert LexLeq(a[1][1..], a[2][1..]);
    }
    assert LexLess(a[2], a[3]);
    assert LexLess(a[3], a[4]);
    forall i, j | 0 <= i < j < |a| ensures LexLess(a[i], a[j]) {
      if j > i + 1 {
        LexLessChain(a, i, j);
      }
    }
    forall s | KnownStatus(s) ensures exists st: JobStatus :: st.Value() == s {
      if s == "accepted" { assert Accepted.Value() == s; }
      else if s == "processing" { assert Processing.Value() == s; }
      else if s == "completed" { assert Completed.Value() == s; }
      else if s == "failed" { assert Failed.Value() == s; }
      else { assert Cancelled.Value() == s; }
    }
  }

  function InvalidStatusFilter(status: string): ErrorInfo {
    ErrorInfo("INVALID_STATUS_FILTER", "Status '" + status + "' is not supported.",
      map["allowed" := JArr(seq(|AllowedStatuses()|, i requires 0 <= i < |AllowedStatuses()| => JStr(AllowedStatuses()[i])))])
  }

  function JobNotFound(id: string): ErrorInfo {
    ErrorInfo("JOB_NOT_FOUND", "Job '" + id + "' was not found.", map["job_id" := JStr(id)])
  }

  /** The sort key of the job list. */
  function UpdatedKey(j: Job): Key {
    IntKey(j.updatedAt)
  }

  /** `[j for j in jobs if j.status.value == s]`. */
  function WithStatus(js: seq<Job>, s: string): seq<Job> {
    if js == [] then []
    else (if js[0].status.Value() == s then [js[0]] else []) + WithStatus(js[1..], s)
  }

  /** The jobs listed before paging: most recently updated first, then filtered. */
  function ListedJobs(js: seq<Job>, status: Option<string>): seq<Job> {
    var sorted := SortBy(js, UpdatedKey, true);
    if Truthy(status) then WithStatus(sorted, status.value) else sorted
  }

  /** The page `fred_job_list` produces: total count, the paging arguments, the jobs. */
  datatype JobPage = JobPage(count: int, offset: int, limit: Option<int>, jobs: seq<Job>)

  /** `fred_job_list` before serialisation: validate the filter, sort, filter, count, page. */
  function JobList(js: seq<Job>, status: Option<string>, limit: Option<int>, offset: int): (r: Result<JobPage, ErrorInfo>)
    ensures r.Err? <==> status.Some? && !KnownStatus(status.value)
    ensures r.Err? ==> r.error.code == "INVALID_STATUS_FILTER"
    ensures r.Ok? ==> r.value.offset == offset && r.value.limit == limit
  {
    if status.Some? && !KnownStatus(status.value) then
      Err(InvalidStatusFilter(status.value))
    else
      var listed := ListedJobs(js, status);
      var stop := if limit.Some? then Some(offset + limit.value) else None;
      Ok(JobPage(|listed|, offset, limit, PySlice(listed, offset, stop)))
  }

  lemma {:induction false} WithStatusMembers(js: seq<Job>, s: string, j: Job)
    ensures multiset(WithStatus(js, s))[j] == if j.status.Value() == s then multiset(js)[j] else 0
  {
    if js != [] {
      WithStatusMembers(js[1..], s, j);
      assert js == [js[0]] + js[1..];
    }
  }

  lemma {:induction false} WithStatusSorted(js: seq<Job>, s: string)
    requires SortedBy(js, UpdatedKey, true)
    ensures SortedBy(WithStatus(js, s), UpdatedKey, true)
  {
    if js != [] {
      var tail := WithStatus(js[1..], s);
      assert SortedBy(js[1..], UpdatedKey, true) by {
        forall i, j | 0 <= i < j < |js| - 1
          ensures Precedes(UpdatedKey(js[1..][i]), UpdatedKey(js[1..][j]), true)
        {
          assert js[1..][i] == js[i + 1] && js[1..][j] == js[j + 1];
        }
      }
      WithStatusSorted(js[1..], s);
      if js[0].status.Value() == s {
        var r := [js[0]] + tail;
        forall i, j | 0 <= i < j < |r| ensures Precedes(UpdatedKey(r[i]), UpdatedKey(r[j]), true) {
          if i == 0 {
            var t := r[j];
            assert t == tail[j - 1];
            WithStatusMembers(js[1..], s, t);
            assert t in multiset(tail);
            assert t in js[1..];
            var k :| 0 <= k < |js[1..]| && js[1..][k] == t;
            assert js[k + 1] == t;
          } else {
            assert r[i] == tail[i - 1] && r[j] == tail[j - 1];
          }
        }
      }
    }
  }

  /** The slice of a sorted list is sorted. */
  lemma SliceSorted<T>(s: seq<T>, start: int, stop: Option<int>, key: T -> Key, desc: bool)
    requires SortedBy(s, key, desc)
    ensures SortedBy(PySlice(s, start, stop), key, desc)
  {
    var lo := AdjustBound(start, |s|);
    var hi := if stop.Some? then AdjustBound(stop.value, |s|) else |s|;
    if lo <= hi {
      var p := s[lo..hi];
      forall i, j | 0 <= i < j < |p| ensures Precedes(key(p[i]), key(p[j]), desc) {
        assert p[i] == s[lo + i] && p[j] == s[lo + j];
      }
    }
  }

  /** Listed jobs come most recently updated first. */
  lemma JobListOrdered(js: seq<Job>, status: Option<string>, limit: Option<int>, offset: int)
    requires JobList(js, status, limit, offset).Ok?
    ensures var page := JobList(js, status, limit, offset).value.jobs;
            forall i, j :: 0 <= i < j < |page| ==> page[i].updatedAt >= page[j].updatedAt
  {
    var sorted := SortBy(js, UpdatedKey, true);
    if Truthy(status) {
      WithStatusSorted(sorted, status.value);
    }
    var listed := ListedJobs(js, status);
    var stop := if limit.Some? then Some(offset + limit.value) else None;
    SliceSorted(listed, offset, stop, UpdatedKey, true);
    var page := PySlice(listed, offset, stop);
    forall i, j | 0 <= i < j < |page| ensures page[i].updatedAt >= page[j].updatedAt {
      assert Precedes(UpdatedKey(page[i]), UpdatedKey(page[j]), true);
    }
  }

  /** Sorting before filtering loses and gains no job: the filtered list holds the
      stored jobs with that status, each as often as it is stored. */
  lemma ListedWithStatusPermutes(js: seq<Job>, s: string)
    ensures multiset(WithStatus(SortBy(js, UpdatedKey, true), s)) == multiset(WithStatus(js, s))
  {
    var sorted := SortBy(js, UpdatedKey, true);
    forall j ensures multiset(WithStatus(sorted, s))[j] == multiset(WithStatus(js, s))[j] {
      WithStatusMembers(sorted, s, j);
      WithStatusMembers(js, s, j);
    }
  }

  /** Every job the filter keeps has the status filtered on. */
  lemma {:induction false} WithStatusAll(js: seq<Job>, s: string)
    ensures forall j :: j in WithStatus(js, s) ==> j.status.Value() == s
  {
    if js != [] {
      WithStatusAll(js[1..], s);
    }
  }

  /** With a status filter, every job on the page has that status. */
  lemma JobListFiltered(js: seq<Job>, s: string, limit: Option<int>, offset: int)
    requires KnownStatus(s)
    ensures var r := JobList(js, Some(s), limit, offset);
            r.Ok? && forall j :: j in r.value.jobs ==> j.status.Value() == s
  {
    var listed := ListedJobs(js, Some(s));
    WithStatusAll(SortBy(js, UpdatedKey, true), s);
    var stop := if limit.Some? then Some(offset + limit.value) else None;
    PySliceMembers(listed, offset, stop);
  }

  /** With a status filter, the listed jobs are exactly the stored jobs with that
      status (as a multiset), so `count` is their number. */
  lemma JobListFilteredCount(js: seq<Job>, s: string, limit: Option<int>, offset: int)
    requires KnownStatus(s)
    ensures var r := JobList(js, Some(s), limit, offset);
            && r.Ok?
            && multiset(ListedJobs(js, Some(s))) == multiset(WithStatus(js, s))
            && r.value.count == |WithStatus(js, s)|
  {
    ListedWithStatusPermutes(js, s);
    var listed := ListedJobs(js, Some(s));
    assert |multiset(listed)| == |multiset(WithStatus(js, s))|;
  }

  /** Without a filter every stored job is listed. */
  lemma JobListUnfiltered(js: seq<Job>, limit: Option<int>, offset: int)
    ensures var r := JobList(js, None, limit, offset);
            r.Ok? && r.value.count == |js| && multiset(ListedJobs(js, None)) == multiset(js)
  {
    SortByLength(js, UpdatedKey, true);
  }

  /** The total does not depend on the paging arguments. */
  lemma JobListCountIgnoresPaging(js: seq<Job>, status: Option<string>, l1: Option<int>, o1: int, l2: Option<int>, o2: int)
    requires JobList(js, status, l1, o1).Ok?
    ensures JobList(js, status, l2, o2).Ok?
    ensures JobList(js, status, l1, o1).value.count == JobList(js, status, l2, o2).value.count
  {
  }

  /** For non-negative paging the page is the run of the listed jobs that starts at
      `offset` and holds at most `limit` jobs, or runs to the end without a limit. */
  lemma JobListPage(js: seq<Job>, status: Option<string>, limit: Option<int>, offset: int)
    requires JobList(js, status, limit, offset).Ok?
    requires offset >= 0 && (limit.Some? ==> limit.value >= 0)
    ensures var listed := ListedJobs(js, status);
            var page := JobList(js, status, limit, offset).value.jobs;
            && (limit.Some? ==> page == listed[Min(offset, |listed|)..Min(offset + limit.value, |listed|)] && |page| <= limit.value)
            && (limit.None? ==> page == listed[Min(offset, |listed|)..])
  {
    WindowSlice(ListedJobs(js, status), offset, limit);
  }

  /** When one stored job has the status, the filtered list is just that job. */
  lemma SingleMatchListed(js: seq<Job>, s: string, x: Job)
    requires s != "" && WithStatus(js, s) == [x]
    ensures ListedJobs(js, Some(s)) == [x]
  {
    var listed := ListedJobs(js, Some(s));
    ListedWithStatusPermutes(js, s);
    assert multiset(listed) == multiset{x};
    assert |listed| == 1;
    assert listed[0] in multiset(listed);
  }

  /** When exactly one stored job has a known status, filtering on it lists that job alone. */
  lemma JobListSingleMatch(js: seq<Job>, s: string, x: Job)
    requires KnownStatus(s) && WithStatus(js, s) == [x]
    ensures var r := JobList(js, Some(s), None, 0);
            r.Ok? && r.value.count == 1 && r.value.jobs == [x]
  {
    SingleMatchListed(js, s, x);
    assert PySlice([x], 0, None) == [x];
  }

  /** Two jobs, the second completed: filtering on "completed" lists just that one. */
  lemma JobListFilterExample(first: Job, second: Job)
    requires first.status == Accepted && second.status == Completed
    ensures JobList([first, second], Some("completed"), None, 0).value.jobs == [second]
  {
    WithStatusExample(first, second);
    JobListSingleMatch([first, second], "completed", second);
  }

  lemma WithStatusExample(first: Job, second: Job)
    requires first.status == Accepted && second.status == Completed
    ensures WithStatus([first, second], "completed") == [second]
  {
    var js := [first, second];
    assert js[1..] == [second] && js[1..][1..] == [];
    assert first.status.Value() == "accepted" && second.status.Value() == "completed";
    assert WithStatus(js[1..], "completed") == [second] + WithStatus([], "completed");
    assert WithStatus(js, "completed") == [] + WithStatus(js[1..], "completed");
  }

  /** `_serialize_job`; timestamps stay integers here. */
  function SerializeJob(j: Job): Json {
    JObj(map[
      "job_id" := JStr(j.jobId),
      "status" := JStr(j.status.Value()),
      "progress" := JObj(j.progress),
      "result" := if j.result.Some? then j.result.value else JNull,
      "error" := if j.error.Some? then j.error.value else JNull,
      "retry_count" := JInt(j.retryCount),
      "created_at" := JInt(j.createdAt),
      "updated_at" := JInt(j.updatedAt)])
  }

  function SerializeJobs(js: seq<Job>): seq<Json> {
    seq(|js|, i requires 0 <= i < |js| => SerializeJob(js[i]))
  }

  /** `fred_job_status`: a missing job is `JOB_NOT_FOUND`; a found job goes, serialised,
      to the output handler with default options and one row. */
  method FredJobStatus(jm: JobManager, id: string) returns (resp: Response)
    ensures resp.ToolError? <==> id !in jm.Ids()
    ensures resp.ToolError? ==> resp.error == JobNotFound(id)
    ensures resp.Delegated? ==>
      exists j :: j in jm.jobs && j.jobId == id &&
        resp.call == SmartOutput(Dict(SerializeJob(j).fields), "job_status", Some(DefaultOutputOptions()), Some(1), None, None, None)
    ensures id in jm.Ids() ==>
      && Lookup(jm.jobs, id).Some?
      && resp == Delegated(SmartOutput(Dict(SerializeJob(Lookup(jm.jobs, id).value).fields), "job_status",
                                       Some(DefaultOutputOptions()), Some(1), None, None, None))
  {
    var job := jm.GetJob(id);
    if job.None? {
      return ToolError(JobNotFound(id));
    }
    assert job.value in jm.jobs;
    assert id in jm.Ids();
    resp := Delegated(SmartOutput(Dict(SerializeJob(job.value).fields), "job_status", Some(DefaultOutputOptions()), Some(1), None, None, None));
  }

  /** `fred_job_list` end to end: an invalid filter is an error; otherwise the page
      goes to the output handler under the "jobs" subdirectory. */
  method FredJobList(jm: JobManager, status: Option<string>, limit: Option<int>, offset: int) returns (resp: Response)
    ensures var r := JobList(jm.jobs, status, limit, offset);
            && (r.Err? ==> resp == ToolError(r.error))
            && (r.Ok? ==>
                  (&& resp.Delegated? && resp.call.operation == "job_list"
                   && resp.call.output == "auto" && resp.call.format == "csv"
                   && resp.call.project.None? && resp.call.filename.None?
                   && resp.call.estimatedRows == Some(|r.value.jobs|) && resp.call.estimatedTokens.None?
                   && resp.call.subdir == Some("jobs") && resp.call.jobId.None?
                   && resp.call.data == Dict(map[
                        "count" := JInt(r.value.count), "offset" := JInt(offset), "limit" := OptInt(limit),
                        "jobs" := JArr(SerializeJobs(r.value.jobs))])))
  {
    var r := JobList(jm.jobs, status, limit, offset);
    if r.Err? {
      return ToolError(r.error);
    }
    var payload := map[
      "count" := JInt(r.value.count), "offset" := JInt(offset), "limit" := OptInt(limit),
      "jobs" := JArr(SerializeJobs(r.value.jobs))];
    resp := Delegated(SmartOutput(Dict(payload), "job_list", Some(DefaultOutputOptions()), Some(|r.value.jobs|), None, Some("jobs"), None));
  }

  /** `fred_job_cancel`: a job the manager does not cancel is reported as `JOB_NOT_FOUND`. */
  method FredJobCancel(jm: JobManager, id: string, reason: Option<string>, now: int) returns (resp: Response)
    requires jm.Valid()
    modifies jm
    ensures jm.Valid()
    ensures var k := IndexOf(old(jm.jobs), id);
            var cancelled := k.Some? && !old(jm.jobs)[k.value].status.IsTerminal();
            && (!cancelled ==> resp == ToolError(JobNotFound(id)) && jm.jobs == old(jm.jobs))
            && (cancelled ==>
                  (&& jm.jobs == old(jm.jobs)[k.value := old(jm.jobs)[k.value].(status := Cancelled, updatedAt := now)]
                   && resp.Delegated? && resp.call.operation == "job_cancel"
                   && resp.call.output == "auto" && resp.call.format == "csv"
                   && resp.call.project.None? && resp.call.filename.None?
                   && resp.call.estimatedRows == Some(1) && resp.call.estimatedTokens.None?
                   && resp.call.subdir == Some("jobs") && resp.call.jobId.None?
                   && resp.call.data == Dict(map["job_id" := JStr(id), "status" := JStr("cancelled"), "reason" := OptStr(reason)])))
  {
    var cancelled := jm.CancelJob(id, reason, now);
    if !cancelled {
      return ToolError(JobNotFound(id));
    }
    var payload := map["job_id" := JStr(id), "status" := JStr("cancelled"), "reason" := OptStr(reason)];
    resp := Delegated(SmartOutput(Dict(payload), "job_cancel", Some(DefaultOutputOptions()), Some(1), None, Some("jobs"), None));
  }

  // ---------------------------------------------------------------------------
  // Project tools
  // ---------------------------------------------------------------------------

  /** The subdirectories every new project gets, in creation order. */
  function Subdirectories(): seq<string> {
    ["series", "maps", "releases", "categories", "sources", "tags"]
  }

  /** The name check `fred_project_create` applies: `not project or not fullmatch`. */
  predicate ValidProjectName(s: string) {
    s != "" && MatchesProjectName(s)
  }

  /** A name passes exactly when it is non-empty and every character is an ASCII
      letter, digit, `-` or `_`. */
  lemma {:induction false} ProjectNameChars(s: string)
    ensures ValidProjectName(s) <==> s != "" && forall i :: 0 <= i < |s| ==> NameChar(s[i])
    decreases |s|
  {
    if |s| > 1 {
      ProjectNameChars(s[1..]);
      assert forall i :: 1 <= i < |s| ==> s[i] == s[1..][i - 1];
    }
  }

  function InvalidProjectName(project: string): ErrorInfo {
    ErrorInfo("INVALID_PROJECT_NAME", "Project names must use letters, numbers, hyphens, or underscores only.",
      map["project" := JStr(project)])
  }

  function ProjectExists(project: string): ErrorInfo {
    ErrorInfo("PROJECT_EXISTS", "Project '" + project + "' already exists.", map["project" := JStr(project)])
  }

  /** The paths of a project's subdirectories, in creation order. */
  function SubdirPaths(project: string): seq<Path> {
    seq(|Subdirectories()|, i requires 0 <= i < |Subdirectories()| => [project, Subdirectories()[i]])
  }

  /** `fred_project_create`: an invalid name or an existing project changes nothing;
      otherwise the project directory and then series, maps, releases, categories,
      sources and tags are created in that order, and the metadata file records that list. */
  method FredProjectCreate(vol: Volume, project: string, now: int) returns (resp: Response)
    modifies vol
    ensures vol.root == old(vol.root)
    ensures !ValidProjectName(project) ==>
      resp == ToolError(InvalidProjectName(project)) && unchanged(vol)
    ensures ValidProjectName(project) && old(vol.Exists([project])) ==>
      resp == ToolError(ProjectExists(project)) && unchanged(vol)
    ensures ValidProjectName(project) && !old(vol.Exists([project])) ==>
      && vol.mkdirs == old(vol.mkdirs) + [[project]] + SubdirPaths(project)
      && vol.entries == old(vol.entries) + {[], [project], [project, ".project.json"]} + set p | p in SubdirPaths(project)
      && vol.metadata == old(vol.metadata)[[project, ".project.json"] := ProjectMetadata(project, now, Subdirectories())]
      && resp == Delegated(SmartOutput(
           Dict(map["project" := JStr(project),
                    "path" := JStr(PathText(vol.root, [project])),
                    "metadata_file" := JStr(PathText(vol.root, [project, ".project.json"]))]),
           "project_create", Some(DefaultOutputOptions()), Some(1), None, Some("projects"), None))
  {
    if !ValidProjectName(project) {
      return ToolError(InvalidProjectName(project));
    }
    if vol.Exists([project]) {
      return ToolError(ProjectExists(project));
    }
    vol.Mkdir([project]);
    assert (set k | 0 <= k <= 1 :: [project][..k]) == {[], [project]} by {
      assert [project][..0] == [] && [project][..1] == [project];
    }
    ghost var base := vol.entries;
    var subdirs := Subdirectories();
    for i := 0 to |subdirs|
      invariant vol.root == old(vol.root) && vol.metadata == old(vol.metadata)
      invariant vol.mkdirs == old(vol.mkdirs) + [[project]] + SubdirPaths(project)[..i]
      invariant vol.entries == base + set p | p in SubdirPaths(project)[..i]
    {
      var p: Path := [project, subdirs[i]];
      vol.Mkdir(p);
      assert (set k | 0 <= k <= 2 :: p[..k]) == {[], [project], p} by {
        assert p[..0] == [] && p[..1] == [project] && p[..2] == p;
      }
      assert SubdirPaths(project)[..i + 1] == SubdirPaths(project)[..i] + [p];
    }
    assert SubdirPaths(project)[..|subdirs|] == SubdirPaths(project);
    vol.WriteMetadata([project, ".project.json"], ProjectMetadata(project, now, Subdirectories()));
    var payload := map[
      "project" := JStr(project),
      "path" := JStr(PathText(vol.root, [project])),
      "metadata_file" := JStr(PathText(vol.root, [project, ".project.json"]))];
    resp := Delegated(SmartOutput(Dict(payload), "project_create", Some(DefaultOutputOptions()), Some(1), None, Some("projects"), None));
  }

  /** What `_gather_project_metadata` reports for one project directory. */
  datatype ProjectSummary = ProjectSummary(
    project: string, path: string, fileCount: nat, totalSizeBytes: int, latestModified: Option<int>)

  /** Files among the walked entries, counted whether or not `stat()` succeeded. */
  function FileCount(items: seq<Probe>): nat {
    if items == [] then 0
    else FileCount(items[..|items| - 1]) + (if items[|items| - 1].isFile then 1 else 0)
  }

  /** Sizes summed over the files that could be stat-ed. */
  function TotalSize(items: seq<Probe>): int {
    if items == [] then 0
    else TotalSize(items[..|items| - 1]) + (if Stated(items[|items| - 1]) then items[|items| - 1].stat.value.size else 0)
  }

  /** The latest modification time over the files that could be stat-ed. */
  function LatestModified(items: seq<Probe>): Option<int> {
    if items == [] then None
    else
      var prev := LatestModified(items[..|items| - 1]);
      var last := items[|items| - 1];
      if Stated(last) && (prev.None? || last.stat.value.mtime > prev.value) then Some(last.stat.value.mtime) else prev
  }

  /** `_gather_project_metadata`: one pass over the walked entries, counting files,
      summing the sizes and keeping the latest modification time of those that stat. */
  method GatherProjectMetadata(name: string, path: string, items: seq<Probe>) returns (m: ProjectSummary)
    ensures m == ProjectSummary(name, path, FileCount(items), TotalSize(items), LatestModified(items))
  {
    var totalSize := 0;
    var fileCount := 0;
    var latest: Option<int> := None;
    for i := 0 to |items|
      invariant fileCount == FileCount(items[..i])
      invariant totalSize == TotalSize(items[..i])
      invariant latest == LatestModified(items[..i])
    {
      assert items[..i + 1][..i] == items[..i];
      var item := items[i];
      if item.isFile {
        fileCount := fileCount + 1;
        if item.stat.Some? {
          totalSize := totalSize + item.stat.value.size;
          var mtime := item.stat.value.mtime;
          if latest.None? || mtime > latest.value {
            latest := Some(mtime);
          }
        }
      }
    }
    assert items[..|items|] == items;
    m := ProjectSummary(name, path, fileCount, totalSize, latest);
  }

  /** The latest time is absent exactly when no file could be stat-ed; otherwise it is
      the modification time of one such file and no such file is later. */
  lemma {:induction false} LatestModifiedIsMaximum(items: seq<Probe>)
    ensures LatestModified(items).None? <==> forall i :: 0 <= i < |items| ==> !Stated(items[i])
    ensures LatestModified(items).Some? ==>
      && (forall i :: 0 <= i < |items| && Stated(items[i]) ==> items[i].stat.value.mtime <= LatestModified(items).value)
      && (exists i :: 0 <= i < |items| && Stated(items[i]) && items[i].stat.value.mtime == LatestModified(items).value)
  {
    if items != [] {
      var init := items[..|items| - 1];
      LatestModifiedIsMaximum(init);
      assert forall i :: 0 <= i < |init| ==> init[i] == items[i];
      var prev := LatestModified(init);
      var last := items[|items| - 1];
      if Stated(last) && (prev.None? || last.stat.value.mtime > prev.value) {
        assert Stated(items[|items| - 1]);
      } else if prev.Some? {
        var w :| 0 <= w < |init| && Stated(init[w]) && init[w].stat.value.mtime == prev.value;
        assert Stated(items[w]) && items[w].stat.value.mtime == prev.value;
      }
    }
  }

  /** Every stat-ed file is a file, so the file count is never below the number of
      stat-ed files, and a file whose `stat()` fails still adds one to the count while
      adding nothing to the size or the latest time. */
  lemma {:induction false} FileCountCoversStated(items: seq<Probe>)
    ensures StatedCount(items) <= FileCount(items) <= |items|
  {
    if items != [] {
      FileCountCoversStated(items[..|items| - 1]);
    }
  }

  lemma UnstatableFileCounted(items: seq<Probe>, p: Probe)
    requires p.isFile && p.stat.None?
    ensures FileCount(items + [p]) == FileCount(items) + 1
    ensures TotalSize(items + [p]) == TotalSize(items)
    ensures LatestModified(items + [p]) == LatestModified(items)
  {
    assert (items + [p])[..|items|] == items;
  }
}
