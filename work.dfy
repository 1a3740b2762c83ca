/** The catalog work of src/domain/work/work.ts: a named, id-keyed list of jobs that must be
    non-empty when the work is built. */
module WorkCatalog {
  import opened Outcomes
  import opened Collections

  /** The error messages `Work` can raise. */
  datatype WorkError =
    | NoJobs        // "Work must have at least one job"
    | DuplicateJob  // "It's not possible to add the same job twice"
    | UnknownJob    // "It's not possible to remove a non-practicable job"

  datatype WorkJob = WorkJob(id: string, name: string)

  function JobId(j: WorkJob): string {
    j.id
  }

  class Work {
    const id: string
    const name: string
    var jobs: seq<WorkJob>

    /** Stores the fields; `NewWork` runs `Validate` afterwards, as the source's constructor does. */
    constructor(id: string, name: string, jobs: seq<WorkJob>)
      ensures this.id == id && this.name == name && this.jobs == jobs
    {
      this.id := id;
      this.name := name;
      this.jobs := jobs;
    }

    /** `validate`: a work needs at least one job. */
    function Validate(): (r: Outcome<WorkError>)
      reads this
      ensures r.Pass? <==> jobs != []
      ensures r.Fail? ==> r.error == NoJobs
    {
      if |jobs| == 0 then Fail(NoJobs) else Pass
    }

    /** `addJob`: rejects a job whose id is already present (whatever its name), otherwise
        appends it at the end. */
    method AddJob(job: WorkJob) returns (r: Outcome<WorkError>)
      modifies this`jobs
      ensures r.Pass? <==> !HasId(old(jobs), JobId, job.id)
      ensures r.Fail? ==> r.error == DuplicateJob
      ensures jobs == if r.Pass? then old(jobs) + [job] else old(jobs)
      ensures old(DistinctIds(jobs, JobId)) ==> DistinctIds(jobs, JobId)
    {
      var i := IndexOf(jobs, JobId, job.id);
      if i != -1 {
        return Fail(DuplicateJob);
      }
      if DistinctIds(jobs, JobId) {
        AppendKeepsDistinct(jobs, JobId, job);
      }
      jobs := jobs + [job];
      r := Pass;
    }

    /** `removeJob`: rejects an id that is not present, otherwise deletes the first job with that
        id and keeps the others in order; the list may become empty, as nothing re-validates it. */
    method RemoveJob(job: WorkJob) returns (r: Outcome<WorkError>)
      modifies this`jobs
      ensures r.Pass? <==> HasId(old(jobs), JobId, job.id)
      ensures r.Fail? ==> r.error == UnknownJob && jobs == old(jobs)
      ensures r.Pass? ==> jobs == RemoveAt(old(jobs), IndexOf(old(jobs), JobId, job.id))
      ensures r.Pass? && old(DistinctIds(jobs, JobId)) ==>
        DistinctIds(jobs, JobId) && !HasId(jobs, JobId, job.id)
    {
      var i := IndexOf(jobs, JobId, job.id);
      if i == -1 {
        return Fail(UnknownJob);
      }
      if DistinctIds(jobs, JobId) {
        RemoveKeepsDistinct(jobs, JobId, i);
      }
      jobs := RemoveAt(jobs, i);
      r := Pass;
    }
  }

  /** `new Work(id, name, jobs)`: fails when `jobs` is empty. */
  method NewWork(id: string, name: string, jobs: seq<WorkJob>) returns (r: Result<Work, WorkError>)
    ensures r.Ok? <==> jobs != []
    ensures r.Err? ==> r.error == NoJobs
    ensures r.Ok? ==> fresh(r.value) && r.value.id == id && r.value.name == name && r.value.jobs == jobs
  {
    var w := new Work(id, name, jobs);
    var v := w.Validate();
    if v.Fail? {
      return Err(v.error);
    }
    return Ok(w);
  }

  /** A work built with one job loses it on removal and then fails its own validation. */
  method RemovingTheOnlyJob(j: WorkJob) returns (w: Work)
    ensures w.jobs == [] && w.Validate() == Fail(NoJobs)
  {
    var built := NewWork("w", "work", [j]);
    w := built.value;
    var outcome := w.RemoveJob(WorkJob(j.id, "another name"));
    assert HasId([j], JobId, j.id) by {
      assert JobId([j][0]) == j.id;
    }
  }
}
