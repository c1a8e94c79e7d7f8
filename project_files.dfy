/** The `fred_project_files` tool (src/mcp_fred/tools/project_files.py): lists the
    files stored under a project, optionally under one subdirectory, sorted and
    paged. Its arguments pass a fixed chain of checks, and the first check that
    fails decides the error returned. */
module ProjectFiles {
  import opened Wrappers
  import opened Ordering
  import opened Slicing
  import opened Common
  import opened Storage

  // ---------------------------------------------------------------------------
  // Constants and error records
  // ---------------------------------------------------------------------------

  /** `SUPPORTED_OPERATIONS`. */
  function SupportedOperations(): seq<string> {
    ["list"]
  }

  /** The named members of `VALID_SUBDIRS` (the set also holds `None`, which no text equals). */
  predicate KnownSubdir(s: string) {
    s in {"series", "maps", "releases", "categories", "sources", "tags"}
  }

  /** `VALID_SORT_FIELDS`. */
  predicate KnownSortField(s: string) {
    s in {"name", "size", "modified"}
  }

  /** `VALID_SORT_ORDERS`. */
  predicate KnownSortOrder(s: string) {
    s in {"asc", "desc"}
  }

  /** `sorted(v for v in VALID_SUBDIRS if v)`. */
  function AllowedSubdirs(): seq<string> {
    ["categories", "maps", "releases", "series", "sources", "tags"]
  }

  /** `sorted(VALID_SORT_FIELDS)`. */
  function AllowedSortFields(): seq<string> {
    ["modified", "name", "size"]
  }

  /** `sorted(VALID_SORT_ORDERS)`. */
  function AllowedSortOrders(): seq<string> {
    ["asc", "desc"]
  }

  predicate StrictlyIncreasing(a: seq<string>) {
    forall i, j :: 0 <= i < j < |a| ==> LexLess(a[i], a[j])
  }

  /** The lists reported with an error are the accepted values, in Python's string order. */
  lemma AllowedListsAreSorted()
    ensures StrictlyIncreasing(AllowedSubdirs()) && (forall s :: s in AllowedSubdirs() <==> KnownSubdir(s))
    ensures StrictlyIncreasing(AllowedSortFields()) && (forall s :: s in AllowedSortFields() <==> KnownSortField(s))
    ensures StrictlyIncreasing(AllowedSortOrders()) && (forall s :: s in AllowedSortOrders() <==> KnownSortOrder(s))
  {
    var a := AllowedSubdirs();
    assert LexLess(a[0], a[1]);
    assert LexLess(a[1], a[2]);
    assert LexLess(a[2], a[3]);
    assert LexLess(a[3], a[4]) by {
      assert a[3][1..] == "eries" && a[4][1..] == "ources";
      assert LexLeq(a[3][1..], a[4][1..]);
    }
    assert LexLess(a[4], a[5]);
    forall i, j | 0 <= i < j < |a| ensures LexLess(a[i], a[j]) {
      LexLessChain(a, i, j);
    }
    var f := AllowedSortFields();
    assert LexLess(f[0], f[1]);
    assert LexLess(f[1], f[2]);
    forall i, j | 0 <= i < j < |f| ensures LexLess(f[i], f[j]) {
      LexLessChain(f, i, j);
    }
    var o := AllowedSortOrders();
    assert LexLess(o[0], o[1]);
  }

  /** `_missing_project`. */
  function MissingProject(project: string): ErrorInfo {
    ErrorInfo("PROJECT_NOT_FOUND", "Project '" + project + "' does not exist.",
              map["project" := JStr(project)])
  }

  function Strings(a: seq<string>): seq<Json> {
    seq(|a|, i requires 0 <= i < |a| => JStr(a[i]))
  }

  /** `_invalid_subdir`. */
  function InvalidSubdir(subdir: string): ErrorInfo {
    ErrorInfo("INVALID_SUBDIRECTORY", "Subdirectory '" + subdir + "' is not supported.",
              map["allowed" := JArr(Strings(AllowedSubdirs()))])
  }

  /** `_invalid_sort`. */
  function InvalidSort(field: string): ErrorInfo {
    ErrorInfo("INVALID_SORT_FIELD", "Sort field '" + field + "' is not supported.",
              map["allowed" := JArr(Strings(AllowedSortFields()))])
  }

  /** `_invalid_sort_order`. */
  function InvalidSortOrder(order: string): ErrorInfo {
    ErrorInfo("INVALID_SORT_ORDER", "Sort order '" + order + "' is not supported.",
              map["allowed" := JArr(Strings(AllowedSortOrders()))])
  }

  /** The errors the tool returns. The first four are built by the shared tool
      helpers (`prepare_output`, `unknown_operation`, `missing_parameter`,
      `invalid_parameter`), whose own rendering is not part of this model.
      `OverflowRaised` is not returned: it stands for the `OverflowError` that
      `int(value)` raises for an infinite float, which `_parse_int` does not
      catch and which therefore leaves the tool as an exception. */
  datatype FilesError =
    | OutputError(body: Json)
    | UnknownOperation(operation: string, supported: seq<string>)
    | MissingParameter(name: string)
    | InvalidParameter(name: string, expected: string)
    | Tool(info: ErrorInfo)
    | OverflowRaised(name: string)

  // ---------------------------------------------------------------------------
  // Argument parsing
  // ---------------------------------------------------------------------------

  /** A `limit` / `offset` argument: absent (`None`), one `int(value)` accepts
      (with the integer it yields), one `int(value)` rejects with `TypeError` or
      `ValueError`, or one it rejects with `OverflowError` (`float("inf")`). */
  datatype RawArg = Missing | Convertible(n: int) | Inconvertible | Overflowing

  datatype Parsed = Parsed(value: Option<int>, error: Option<FilesError>)

  /** `_parse_int`: nothing for a missing argument, the integer for a
      non-negative one, and otherwise an error naming the argument; an
      overflowing argument raises past the `except (TypeError, ValueError)`. */
  function ParseInt(v: RawArg, name: string): (r: Parsed)
    ensures r.value.None? || r.error.None?
    ensures r.value.Some? <==> (v.Convertible? && v.n >= 0)
    ensures r.value.Some? ==> r.value.value == v.n && r.value.value >= 0
    ensures v.Missing? ==> r.error.None?
    ensures v.Inconvertible? ==> r.error == Some(InvalidParameter(name, "an integer"))
    ensures v.Overflowing? ==> r.error == Some(OverflowRaised(name))
    ensures v.Convertible? && v.n < 0 ==> r.error == Some(InvalidParameter(name, "a non-negative integer"))
  {
    match v
    case Missing => Parsed(None, None)
    case Inconvertible => Parsed(None, Some(InvalidParameter(name, "an integer")))
    case Overflowing => Parsed(None, Some(OverflowRaised(name)))
    case Convertible(n) =>
      if n < 0 then Parsed(None, Some(InvalidParameter(name, "a non-negative integer")))
      else Parsed(Some(n), None)
  }

  /** `str.lower()` on ASCII letters. */
  function LowerChar(c: char): char {
    if 'A' <= c <= 'Z' then (c as int + 32) as char else c
  }

  function Lower(s: string): (r: string)
    ensures |r| == |s|
    ensures forall i :: 0 <= i < |s| ==> r[i] == LowerChar(s[i])
  {
    seq(|s|, i requires 0 <= i < |s| => LowerChar(s[i]))
  }

  /** Lowering twice is lowering once, so "DESC", "Desc" and "desc" all select the same order. */
  lemma LowerIdempotent(s: string)
    ensures Lower(Lower(s)) == Lower(s)
    ensures Lower("desc") == "desc" && Lower("asc") == "asc"
  {
  }

  /** `kwargs.get(key, default)`: the given text, or the default when the key is absent. */
  function Given(arg: Option<string>, default: string): string {
    if arg.Some? then arg.value else default
  }

  // ---------------------------------------------------------------------------
  // The check chain
  // ---------------------------------------------------------------------------

  /** The tool's arguments: the operation, then the keyword arguments.
      `project` and `subdir` are the caller's text, `None` when the key is absent
      or explicitly `None` (both read as "not given"). `sortBy` and `sortOrder`
      are `str()` of what was passed, `None` only when the key is absent: an
      explicit `None` arrives as the text "None" and fails the sort checks. */
  datatype FilesRequest = FilesRequest(
    operation: string,
    project: Option<string>,
    subdir: Option<string>,
    sortBy: Option<string>,
    sortOrder: Option<string>,
    limit: RawArg,
    offset: RawArg)

  /** What a request that passes every check lists. */
  datatype FilesPlan = FilesPlan(
    options: OutputOptions,
    project: string,
    target: Path,
    subdirectory: Option<string>,
    field: string,
    order: string,
    limit: Option<int>,
    offset: Option<int>)

  function ProjectName(req: FilesRequest): string {
    if req.project.Some? then req.project.value else ""
  }

  /** The directory listed: the project, or the named subdirectory of it. */
  function Target(req: FilesRequest): Path {
    if Truthy(req.subdir) then [ProjectName(req), req.subdir.value] else [ProjectName(req)]
  }

  function SortField(req: FilesRequest): string {
    Given(req.sortBy, "name")
  }

  function SortOrder(req: FilesRequest): string {
    Lower(Given(req.sortOrder, "asc"))
  }

  /** `fred_project_files` from its first line to the file walk: returns at the
      first argument that fails, in the order the tool checks them. `prepared`
      is what `prepare_output(kwargs)` returned. */
  function Validate(req: FilesRequest, prepared: Result<OutputOptions, Json>, entries: set<Path>): Result<FilesPlan, FilesError> {
    if prepared.Err? then Err(OutputError(prepared.error))
    else if req.operation != "list" then Err(UnknownOperation(req.operation, SupportedOperations()))
    else if req.project.None? then Err(MissingParameter("project"))
    else
      var name := req.project.value;
      if !MatchesProjectName(name) then Err(InvalidParameter("project", "letters, numbers, hyphens, or underscores"))
      else if [name] !in entries then Err(Tool(MissingProject(name)))
      else if Truthy(req.subdir) && !KnownSubdir(req.subdir.value) then Err(Tool(InvalidSubdir(req.subdir.value)))
      else if req.subdir.Some? && !Truthy(req.subdir) then Err(Tool(InvalidSubdir(req.subdir.value)))
      else
        var target := if Truthy(req.subdir) then [name, req.subdir.value] else [name];
        if target !in entries then
          Err(Tool(if Truthy(req.subdir) then InvalidSubdir(req.subdir.value) else MissingProject(name)))
        else
          var field := Given(req.sortBy, "name");
          if !KnownSortField(field) then Err(Tool(InvalidSort(field)))
          else
            var order := Lower(Given(req.sortOrder, "asc"));
            if !KnownSortOrder(order) then Err(Tool(InvalidSortOrder(order)))
            else
              var limit := ParseInt(req.limit, "limit");
              if limit.error.Some? then Err(limit.error.value)
              else
                var offset := ParseInt(req.offset, "offset");
                if offset.error.Some? then Err(offset.error.value)
                else
                  var sub := if Truthy(req.subdir) then Some(req.subdir.value) else None;
                  Ok(FilesPlan(prepared.value, name, target, sub, field, order, limit.value, offset.value))
  }

  /** One check of the chain: whether it passes, and the error it reports if not. */
  datatype Check = Check(passes: bool, error: FilesError)

  /** The checks of `fred_project_files`, each stated on its own. A check whose
      inputs only exist once earlier checks passed is stated for that case. */
  function Checks(req: FilesRequest, prepared: Result<OutputOptions, Json>, entries: set<Path>): seq<Check> {
    var name := ProjectName(req);
    var limit := ParseInt(req.limit, "limit");
    var offset := ParseInt(req.offset, "offset");
    [ Check(prepared.Ok?, OutputError(if prepared.Err? then prepared.error else JNull)),
      Check(req.operation == "list", UnknownOperation(req.operation, SupportedOperations())),
      Check(req.project.Some?, MissingParameter("project")),
      Check(MatchesProjectName(name), InvalidParameter("project", "letters, numbers, hyphens, or underscores")),
      Check([name] in entries, Tool(MissingProject(name))),
      Check(req.subdir.None? || (req.subdir.value != "" && KnownSubdir(req.subdir.value)),
            Tool(InvalidSubdir(if req.subdir.Some? then req.subdir.value else ""))),
      Check(Target(req) in entries,
            Tool(if Truthy(req.subdir) then InvalidSubdir(req.subdir.value) else MissingProject(name))),
      Check(KnownSortField(SortField(req)), Tool(InvalidSort(SortField(req)))),
      Check(KnownSortOrder(SortOrder(req)), Tool(InvalidSortOrder(SortOrder(req)))),
      Check(limit.error.None?, if limit.error.Some? then limit.error.value else MissingParameter("limit")),
      Check(offset.error.None?, if offset.error.Some? then offset.error.value else MissingParameter("offset")) ]
  }

  /** The error of the first check that fails, if any fails. */
  function FirstFailure(cs: seq<Check>): (r: Option<FilesError>)
    ensures r.None? <==> forall i :: 0 <= i < |cs| ==> cs[i].passes
  {
    if cs == [] then None
    else if !cs[0].passes then Some(cs[0].error)
    else
      var r := FirstFailure(cs[1..]);
      assert forall i :: 1 <= i < |cs| ==> cs[i] == cs[1..][i - 1];
      r
  }

  /** The tool's early returns report exactly the first failing check, and it goes
      on to list files exactly when every check passes. */
  lemma ValidateIsFirstFailure(req: FilesRequest, prepared: Result<OutputOptions, Json>, entries: set<Path>)
    ensures var v := Validate(req, prepared, entries);
            var f := FirstFailure(Checks(req, prepared, entries));
            && (v.Ok? <==> f.None?)
            && (v.Err? ==> f == Some(v.error))
  {
    var v := Validate(req, prepared, entries);
    var cs := Checks(req, prepared, entries);
    var name := ProjectName(req);
    if v.Ok? {
      assert forall i :: 0 <= i < |cs| ==> cs[i].passes;
    } else {
      var k: nat :=
        if prepared.Err? then 0
        else if req.operation != "list" then 1
        else if req.project.None? then 2
        else if !MatchesProjectName(name) then 3
        else if [name] !in entries then 4
        else if req.subdir.Some? && !(req.subdir.value != "" && KnownSubdir(req.subdir.value)) then 5
        else if Target(req) !in entries then 6
        else if !KnownSortField(SortField(req)) then 7
        else if !KnownSortOrder(SortOrder(req)) then 8
        else if ParseInt(req.limit, "limit").error.Some? then 9
        else 10;
      assert k < |cs| && !cs[k].passes && v.error == cs[k].error;
      FirstFailureAt(cs, k);
    }
  }

  /** The chain stops at the first failing check. */
  lemma {:induction false} FirstFailureAt(cs: seq<Check>, k: nat)
    requires k < |cs| && !cs[k].passes
    requires forall i :: 0 <= i < k ==> cs[i].passes
    ensures FirstFailure(cs) == Some(cs[k].error)
  {
    if k > 0 {
      FirstFailureAt(cs[1..], k - 1);
    }
  }

  /** A plan that passes the checks names an existing directory, a known field and
      order, and non-negative paging, all taken from the request. */
  lemma ValidPlan(req: FilesRequest, prepared: Result<OutputOptions, Json>, entries: set<Path>)
    requires Validate(req, prepared, entries).Ok?
    ensures var p := Validate(req, prepared, entries).value;
            && prepared == Ok(p.options)
            && req.operation == "list"
            && req.project == Some(p.project) && MatchesProjectName(p.project)
            && [p.project] in entries && p.target in entries
            && (p.subdirectory.None? ==> req.subdir.None? && p.target == [p.project])
            && (p.subdirectory.Some? ==>
                  && req.subdir == p.subdirectory && KnownSubdir(p.subdirectory.value)
                  && p.target == [p.project, p.subdirectory.value])
            && KnownSortField(p.field) && p.field == Given(req.sortBy, "name")
            && KnownSortOrder(p.order) && p.order == Lower(Given(req.sortOrder, "asc"))
            && (p.limit.Some? ==> p.limit.value >= 0 && req.limit == Convertible(p.limit.value))
            && (p.limit.None? ==> req.limit.Missing?)
            && (p.offset.Some? ==> p.offset.value >= 0 && req.offset == Convertible(p.offset.value))
            && (p.offset.None? ==> req.offset.Missing?)
  {
  }

  // ---------------------------------------------------------------------------
  // Walking, sorting and paging
  // ---------------------------------------------------------------------------

  /** One listed file; `modified` is the modification time the ISO text renders. */
  datatype FileInfo = FileInfo(name: string, relativePath: string, sizeBytes: int, modified: int, path: string)

  function Info(p: Probe): FileInfo
    requires p.stat.Some?
  {
    FileInfo(p.name, p.relativePath, p.stat.value.size, p.stat.value.mtime, p.path)
  }

  /** The files `_gather_files` collects from a walk: its stat-ed files, in walk order. */
  function Gathered(walk: seq<Probe>): seq<FileInfo> {
    if walk == [] then []
    else
      var last := walk[|walk| - 1];
      Gathered(walk[..|walk| - 1]) + (if Stated(last) then [Info(last)] else [])
  }

  /** One record per stat-ed file, each the rendering of a walked entry. */
  lemma {:induction false} GatheredFromWalk(walk: seq<Probe>)
    ensures |Gathered(walk)| == StatedCount(walk)
    ensures forall f :: f in Gathered(walk) ==> exists p :: p in walk && Stated(p) && f == Info(p)
  {
    if walk != [] {
      var init := walk[..|walk| - 1];
      GatheredFromWalk(init);
      forall f | f in Gathered(walk) ensures exists p :: p in walk && Stated(p) && f == Info(p) {
        if f in Gathered(init) {
          var p :| p in init && Stated(p) && f == Info(p);
          assert p in walk;
        } else {
          assert walk[|walk| - 1] in walk;
        }
      }
    }
  }

  /** `_gather_files`. */
  method GatherFiles(walk: seq<Probe>) returns (files: seq<FileInfo>)
    ensures files == Gathered(walk)
  {
    files := [];
    for i := 0 to |walk|
      invariant files == Gathered(walk[..i])
    {
      assert walk[..i + 1][..i] == walk[..i];
      var p := walk[i];
      if !p.isFile {
        continue;
      }
      if p.stat.None? {
        continue;
      }
      files := files + [Info(p)];
    }
    assert walk[..|walk|] == walk;
  }

  /** The key `_sort_files` sorts by for a sort field. */
  function FileKey(field: string): FileInfo -> Key {
    if field == "name" then (f: FileInfo) => TextKey(f.relativePath)
    else if field == "size" then (f: FileInfo) => IntKey(f.sizeBytes)
    else (f: FileInfo) => IntKey(f.modified)
  }

  /** `_sort_files`: a stable sort on the field's key, descending for order "desc". */
  function SortFiles(files: seq<FileInfo>, field: string, order: string): seq<FileInfo> {
    SortBy(files, FileKey(field), order == "desc")
  }

  /** The sorted files are the same files, ordered by the chosen field. */
  lemma SortFilesOrder(files: seq<FileInfo>, field: string, order: string)
    ensures var r := SortFiles(files, field, order);
            && multiset(r) == multiset(files) && |r| == |files|
            && forall i, j :: 0 <= i < j < |r| ==>
                 && (field == "name" && order != "desc" ==> LexLeq(r[i].relativePath, r[j].relativePath))
                 && (field == "name" && order == "desc" ==> LexLeq(r[j].relativePath, r[i].relativePath))
                 && (field == "size" && order != "desc" ==> r[i].sizeBytes <= r[j].sizeBytes)
                 && (field == "size" && order == "desc" ==> r[i].sizeBytes >= r[j].sizeBytes)
                 && (field != "name" && field != "size" && order != "desc" ==> r[i].modified <= r[j].modified)
                 && (field != "name" && field != "size" && order == "desc" ==> r[i].modified >= r[j].modified)
  {
    var r := SortFiles(files, field, order);
    SortByLength(files, FileKey(field), order == "desc");
    forall i, j | 0 <= i < j < |r|
      ensures Precedes(FileKey(field)(r[i]), FileKey(field)(r[j]), order == "desc")
    {
    }
  }

  /** The listing payload (before `success_response` hands it on). */
  datatype FilesListing = FilesListing(
    project: string,
    subdirectory: Option<string>,
    count: nat,
    offset: int,
    limit: Option<int>,
    files: seq<FileInfo>)

  /** What a successful call lists for a plan and the walk of its directory:
      the total before paging, and the page `files[start:start + limit]`. */
  function Listing(plan: FilesPlan, walk: seq<Probe>): FilesListing {
    var files := Gathered(walk);
    var start := if plan.offset.Some? then plan.offset.value else 0;
    var stop := if plan.limit.Some? then Some(start + plan.limit.value) else None;
    FilesListing(plan.project, plan.subdirectory, |files|, start, plan.limit,
                 PySlice(SortFiles(files, plan.field, plan.order), start, stop))
  }

  /** The count is every stat-ed file of the walk, whatever the paging. */
  lemma ListingCount(plan: FilesPlan, walk: seq<Probe>)
    ensures Listing(plan, walk).count == StatedCount(walk) == |SortFiles(Gathered(walk), plan.field, plan.order)|
  {
    GatheredFromWalk(walk);
    SortByLength(Gathered(walk), FileKey(plan.field), plan.order == "desc");
  }

  /** For the non-negative paging a valid plan carries, the page is the run of at
      most `limit` sorted files starting at `offset`. */
  lemma ListingWindow(plan: FilesPlan, walk: seq<Probe>)
    requires plan.limit.Some? ==> plan.limit.value >= 0
    requires plan.offset.Some? ==> plan.offset.value >= 0
    ensures var l := Listing(plan, walk);
            var sorted := SortFiles(Gathered(walk), plan.field, plan.order);
            && l.offset >= 0
            && (plan.limit.Some? ==> l.files == sorted[Min(l.offset, |sorted|)..Min(l.offset + plan.limit.value, |sorted|)]
                                     && |l.files| <= plan.limit.value)
            && (plan.limit.None? ==> l.files == sorted[Min(l.offset, |sorted|)..])
  {
    var sorted := SortFiles(Gathered(walk), plan.field, plan.order);
    var start := if plan.offset.Some? then plan.offset.value else 0;
    var stop := if plan.limit.Some? then Some(start + plan.limit.value) else None;
    assert Listing(plan, walk).files == PySlice(sorted, start, stop);
    WindowSlice(sorted, start, plan.limit);
  }

  /** The page lists only gathered files. */
  lemma ListingMembers(plan: FilesPlan, walk: seq<Probe>)
    ensures forall f :: f in Listing(plan, walk).files ==> f in Gathered(walk)
  {
    var files := Gathered(walk);
    var sorted := SortFiles(files, plan.field, plan.order);
    var start := if plan.offset.Some? then plan.offset.value else 0;
    var stop := if plan.limit.Some? then Some(start + plan.limit.value) else None;
    assert Listing(plan, walk).files == PySlice(sorted, start, stop);
    PySliceMembers(sorted, start, stop);
    forall f | f in PySlice(sorted, start, stop) ensures f in files {
      assert f in multiset(sorted);
    }
  }

  /** What the tool hands to `success_response`: the listing, the output options,
      the estimated row count (the page size) and the category "projects". */
  datatype FilesResult = FilesResult(operation: string, options: OutputOptions, listing: FilesListing, estimatedRows: nat, category: string)

  /** `fred_project_files`. `prepared` is what `prepare_output(kwargs)` returned,
      `walk` is `rglob("*")` of the directory the request names. */
  method FredProjectFiles(req: FilesRequest, prepared: Result<OutputOptions, Json>, vol: Volume, walk: seq<Probe>)
    returns (r: Result<FilesResult, FilesError>)
    ensures var v := Validate(req, prepared, vol.entries);
            && (v.Err? ==> r == Err(v.error))
            && (v.Ok? ==> r.Ok? && r.value.listing == Listing(v.value, walk)
                          && r.value.options == v.value.options
                          && r.value.estimatedRows == |r.value.listing.files|
                          && r.value.operation == "list" && r.value.category == "projects")
  {
    var v := Validate(req, prepared, vol.entries);
    if v.Err? {
      return Err(v.error);
    }
    var plan := v.value;
    var files := GatherFiles(walk);
    var total := |files|;
    files := SortFiles(files, plan.field, plan.order);
    var start := if plan.offset.Some? then plan.offset.value else 0;
    var stop := if plan.limit.Some? then Some(start + plan.limit.value) else None;
    var sliced := PySlice(files, start, stop);
    var listing := FilesListing(plan.project, plan.subdirectory, total, start, plan.limit, sliced);
    r := Ok(FilesResult(req.operation, plan.options, listing, |sliced|, "projects"));
  }
}
