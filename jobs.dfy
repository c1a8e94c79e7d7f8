/** The job manager and background worker, as the tools see them. Their own
    source (src/mcp_fred/utils/job_manager.py, background_worker.py) is not part
    of this model: the classes below are interface stand-ins with the smallest
    behaviour the calling tools rely on. Terminal states are final. */
module Jobs {
  import opened Wrappers
  import opened Common

  datatype JobStatus = Accepted | Processing | Completed | Failed | Cancelled {
    /** `JobStatus.value`, the text the tools compare and serialise. */
    function Value(): string {
      match this
      case Accepted => "accepted"
      case Processing => "processing"
      case Completed => "completed"
      case Failed => "failed"
      case Cancelled => "cancelled"
    }

    predicate IsTerminal() {
      Completed? || Failed? || Cancelled?
    }
  }

  /** A job record; timestamps are integers, in microseconds since the Unix
      epoch (UTC), the resolution of a Python `datetime`. */
  datatype Job = Job(
    jobId: string,
    status: JobStatus,
    progress: map<string, Json>,
    result: Option<Json>,
    error: Option<Json>,
    retryCount: nat,
    createdAt: int,
    updatedAt: int)

  predicate DistinctIds(js: seq<Job>) {
    forall i, j :: 0 <= i < j < |js| ==> js[i].jobId != js[j].jobId
  }

  /** Where the job with this id sits in the list, if anywhere. */
  function IndexOf(js: seq<Job>, id: string): (r: Option<nat>)
    ensures r.Some? ==> r.value < |js| && js[r.value].jobId == id
    ensures r.None? ==> forall i :: 0 <= i < |js| ==> js[i].jobId != id
  {
    if js == [] then None
    else if js[0].jobId == id then Some(0)
    else
      var k := IndexOf(js[1..], id);
      if k.Some? then Some(k.value + 1) else None
  }

  /** In a list of distinct ids, the position holding an id is where lookup finds it. */
  lemma IndexOfDistinct(js: seq<Job>, id: string, k: nat)
    requires DistinctIds(js) && k < |js| && js[k].jobId == id
    ensures IndexOf(js, id) == Some(k)
  {
  }

  /** `JobManager.get_job` on a list of jobs. */
  function Lookup(js: seq<Job>, id: string): Option<Job> {
    var k := IndexOf(js, id);
    if k.Some? then Some(js[k.value]) else None
  }

  /** One job's change of state, as the job runner reports it. */
  datatype JobUpdate = Complete(payload: Json) | Fail(error: Json)

  /** What a job runner reports when its work raised: a `FREDAPIError` fails the
      job with `exc.to_dict()`, anything else with code `JOB_ERROR` and `str(exc)`. */
  function FailureRecord(e: Raised): (r: Json)
    ensures e.FredApiError? ==> r == e.asDict
    ensures e.OtherException? ==>
      r.JObj? && r.fields.Keys == {"code", "message"} &&
      r.fields["code"] == JStr("JOB_ERROR") && r.fields["message"] == JStr(e.text)
  {
    match e
    case FredApiError(d) => d
    case OtherException(t) => JObj(map["code" := JStr("JOB_ERROR"), "message" := JStr(t)])
  }

  /** The job manager's store: a dict from job id to job, kept in insertion order. */
  class JobManager {
    var jobs: seq<Job>

    ghost predicate Valid()
      reads this
    {
      DistinctIds(jobs)
    }

    function Ids(): set<string>
      reads this
    {
      set j | j in jobs :: j.jobId
    }

    constructor ()
      ensures Valid() && jobs == []
    {
      jobs := [];
    }

    /** `create_job`: a new accepted job under a fresh identifier. */
    method CreateJob(id: string, now: int) returns (job: Job)
      requires Valid() && id !in Ids()
      modifies this
      ensures Valid()
      ensures job == Job(id, Accepted, map[], None, None, 0, now, now)
      ensures jobs == old(jobs) + [job]
    {
      job := Job(id, Accepted, map[], None, None, 0, now, now);
      forall i | 0 <= i < |jobs| ensures jobs[i].jobId != id {
        assert jobs[i] in jobs;
      }
      jobs := jobs + [job];
    }

    /** Replaces the job at index `k`, keeping its id. */
    method Replace(k: nat, job: Job)
      requires Valid() && k < |jobs| && job.jobId == jobs[k].jobId
      modifies this
      ensures Valid() && jobs == old(jobs)[k := job]
    {
      jobs := jobs[k := job];
    }

    /** `update_progress`: merges the given entries into a job's progress. */
    method UpdateProgress(id: string, entries: map<string, Json>, now: int)
      requires Valid()
      modifies this
      ensures Valid()
      ensures var k := IndexOf(old(jobs), id);
              jobs == if k.None? then old(jobs)
                      else old(jobs)[k.value := old(jobs)[k.value].(progress := old(jobs)[k.value].progress + entries, updatedAt := now)]
    {
      var k := IndexOf(jobs, id);
      if k.Some? {
        Replace(k.value, jobs[k.value].(progress := jobs[k.value].progress + entries, updatedAt := now));
      }
    }

    /** `complete_job` / `fail_job`: a job that is not yet terminal takes the update;
        a missing or terminal job is left as it is. */
    method Apply(id: string, update: JobUpdate, now: int)
      requires Valid()
      modifies this
      ensures Valid()
      ensures var k := IndexOf(old(jobs), id);
              jobs == if k.None? || old(jobs)[k.value].status.IsTerminal() then old(jobs)
                      else old(jobs)[k.value := Updated(old(jobs)[k.value], update, now)]
    {
      var k := IndexOf(jobs, id);
      if k.Some? && !jobs[k.value].status.IsTerminal() {
        Replace(k.value, Updated(jobs[k.value], update, now));
      }
    }

    /** `get_job`: the job with that id, or nothing. */
    method GetJob(id: string) returns (job: Option<Job>)
      ensures job == Lookup(jobs, id)
      ensures job.Some? ==> job.value in jobs && job.value.jobId == id
      ensures job.None? ==> id !in Ids()
    {
      job := Lookup(jobs, id);
    }

    /** `cancel_job`: true when a job that was not yet terminal is now cancelled.
        The stand-in accepts the caller's `reason` but does not store it: the
        tool echoes it in its own response. */
    method CancelJob(id: string, reason: Option<string>, now: int) returns (cancelled: bool)
      requires Valid()
      modifies this
      ensures Valid()
      ensures var k := IndexOf(old(jobs), id);
              && cancelled == (k.Some? && !old(jobs)[k.value].status.IsTerminal())
              && jobs == if cancelled then old(jobs)[k.value := old(jobs)[k.value].(status := Cancelled, updatedAt := now)]
                         else old(jobs)
    {
      var k := IndexOf(jobs, id);
      cancelled := k.Some? && !jobs[k.value].status.IsTerminal();
      if cancelled {
        Replace(k.value, jobs[k.value].(status := Cancelled, updatedAt := now));
      }
    }
  }

  /** A job's record after a runner's update. */
  function Updated(job: Job, update: JobUpdate, now: int): Job {
    match update
    case Complete(p) => job.(status := Completed, result := Some(p), updatedAt := now)
    case Fail(e) => job.(status := Failed, error := Some(e), updatedAt := now)
  }

  /** The background worker's intake: started once, then fed (job id, runner) pairs.
      `R` describes what a submitted runner will do. */
  class BackgroundWorker<R> {
    var started: bool
    var queue: seq<(string, R)>

    constructor ()
      ensures !started && queue == []
    {
      started := false;
      queue := [];
    }

    method Start()
      modifies this
      ensures started && queue == old(queue)
    {
      started := true;
    }

    method Submit(id: string, runner: R)
      modifies this
      ensures started == old(started) && queue == old(queue) + [(id, runner)]
    {
      queue := queue + [(id, runner)];
    }
  }
}
