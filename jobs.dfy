/** The in-memory table of long-running scraping jobs and their status changes. */
module Jobs {
  import opened Js

  datatype JobStatus = Pending | Running | Completed | Failed

  /** The value each status is stored and serialised as. */
  function StatusName(s: JobStatus): (name: string)
    ensures name in {"pending", "running", "completed", "failed"}
  {
    match s
    case Pending => "pending"
    case Running => "running"
    case Completed => "completed"
    case Failed => "failed"
  }

  lemma StatusNamesDistinct(a: JobStatus, b: JobStatus)
    ensures StatusName(a) == StatusName(b) <==> a == b
  {
  }

  /** One job record; `None` stands for Python's `None`. */
  datatype Job = Job(
    id: string,
    status: JobStatus,
    params: Record,
    results: Option<seq<Record>>,
    error: Option<string>,
    createdAt: string,
    updatedAt: string)

  /** The record `create_job` stores: pending, nothing produced yet. The two times are
      two separate clock readings. */
  function NewJob(id: string, params: Record, created: string, updated: string): (j: Job)
    ensures j.id == id && j.params == params && j.status == Pending
    ensures j.results.None? && j.error.None?
    ensures j.createdAt == created && j.updatedAt == updated
  {
    Job(id, Pending, params, None, None, created, updated)
  }

  /** What `update_job` makes of a record: the status and update time always change,
      results and error only when a value is given. */
  function Updated(j: Job, status: JobStatus, results: Option<seq<Record>>, error: Option<string>, now: string): (u: Job)
    ensures u.id == j.id && u.params == j.params && u.createdAt == j.createdAt
    ensures u.status == status && u.updatedAt == now
    ensures results.Some? ==> u.results == results
    ensures results.None? ==> u.results == j.results
    ensures error.Some? ==> u.error == error
    ensures error.None? ==> u.error == j.error
  {
    j.(status := status, updatedAt := now,
       results := if results.Some? then results else j.results,
       error := if error.Some? then error else j.error)
  }

  /** `update_job` on the whole table: an unknown id changes nothing. */
  function UpdatedTable(jobs: map<string, Job>, id: string, status: JobStatus,
                        results: Option<seq<Record>>, error: Option<string>, now: string): (t: map<string, Job>)
    ensures t.Keys == jobs.Keys
    ensures forall k :: k in jobs && k != id ==> t[k] == jobs[k]
    ensures id in jobs ==> t[id] == Updated(jobs[id], status, results, error, now)
    ensures id !in jobs ==> t == jobs
  {
    if id in jobs then jobs[id := Updated(jobs[id], status, results, error, now)] else jobs
  }

  /** A failed job keeps the results of an earlier completion, and completing a failed
      job keeps its error: neither call clears the other field. */
  lemma CompleteThenFail(j: Job, results: seq<Record>, error: string, t1: string, t2: string)
    ensures var done := Updated(Updated(j, Completed, Some(results), None, t1), Failed, None, Some(error), t2);
            done.status == Failed && done.results == Some(results) && done.error == Some(error)
  {
  }

  class JobTable {
    var jobs: map<string, Job>

    /** Each record sits under its own id. */
    ghost predicate Valid()
      reads this
    {
      forall k :: k in jobs ==> jobs[k].id == k
    }

    constructor ()
      ensures jobs == map[] && Valid()
    {
      jobs := map[];
    }

    /** `create_job(params)`: `freshId` is the new UUID, `created` and `updated` the
        two `utcnow()` readings. A record already under that id would be replaced. */
    method CreateJob(params: Record, freshId: string, created: string, updated: string) returns (id: string)
      requires Valid()
      modifies this
      ensures id == freshId
      ensures jobs == old(jobs)[id := NewJob(id, params, created, updated)]
      ensures Valid()
    {
      id := freshId;
      jobs := jobs[id := NewJob(id, params, created, updated)];
    }

    /** `get_job(job_id)`: `None` for an unknown id. */
    method GetJob(id: string) returns (j: Option<Job>)
      requires Valid()
      ensures j.None? <==> id !in jobs
      ensures j.Some? ==> j.value == jobs[id] && j.value.id == id
    {
      if id in jobs {
        j := Some(jobs[id]);
      } else {
        j := None;
      }
    }

    method UpdateJob(id: string, status: JobStatus, results: Option<seq<Record>>, error: Option<string>, now: string)
      requires Valid()
      modifies this
      ensures jobs == UpdatedTable(old(jobs), id, status, results, error, now)
      ensures Valid()
    {
      if id in jobs {
        jobs := jobs[id := Updated(jobs[id], status, results, error, now)];
      }
    }

    /** `start_job`: running, results and error as they were. */
    method StartJob(id: string, now: string)
      requires Valid()
      modifies this
      ensures jobs == UpdatedTable(old(jobs), id, Running, None, None, now)
      ensures id in jobs ==> jobs[id].status == Running && jobs[id].results == old(jobs)[id].results
      ensures Valid()
    {
      UpdateJob(id, Running, None, None, now);
    }

    /** `complete_job`: a `None` result leaves any earlier results in place. */
    method CompleteJob(id: string, results: Option<seq<Record>>, now: string)
      requires Valid()
      modifies this
      ensures jobs == UpdatedTable(old(jobs), id, Completed, results, None, now)
      ensures id in jobs ==> jobs[id].status == Completed && jobs[id].error == old(jobs)[id].error
      ensures Valid()
    {
      UpdateJob(id, Completed, results, None, now);
    }

    /** `fail_job`: the error is recorded, results are kept. */
    method FailJob(id: string, error: string, now: string)
      requires Valid()
      modifies this
      ensures jobs == UpdatedTable(old(jobs), id, Failed, None, Some(error), now)
      ensures id in jobs ==> jobs[id].status == Failed && jobs[id].error == Some(error)
      ensures Valid()
    {
      UpdateJob(id, Failed, None, Some(error), now);
    }
  }
}
