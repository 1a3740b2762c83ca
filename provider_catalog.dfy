/** The provider aggregate of src/domain/provider/entity/provider.ts: a provider (a user) with a
    non-empty list of provider works, each a priced list of jobs whose total cost is never below
    the work's minimum cost. A `Provider` extends `User` in the source; here it holds its user. */
module ProviderCatalog {
  import opened Outcomes
  import opened Collections
  import Users

  /** The error messages `Provider` can raise. */
  datatype ProviderError =
    | Underage       // the inherited user validation; its base class is not part of this model
    | NoWorks        // "Provider must have at least one work"
    | DuplicateWork  // "It's not possible to add the same work twice"
    | UnknownWork    // "It's not possible to remove a non-practicable work"

  /** The error messages `ProviderWork` can raise. */
  datatype ProviderWorkError =
    | NoJobs         // "Provider work must have at least one job"
    | DuplicateJob   // "It's not possible to add the same job twice"
    | UnknownJob     // "It's not possible to remove a non-practicable job"

  datatype ProviderWorkJob = ProviderWorkJob(id: string, name: string, cost: real)

  function JobId(j: ProviderWorkJob): string {
    j.id
  }

  /** The `reduce` over job costs. */
  function JobsTotal(jobs: seq<ProviderWorkJob>): real {
    if jobs == [] then 0.0 else JobsTotal(jobs[..|jobs| - 1]) + jobs[|jobs| - 1].cost
  }

  /** `totalCost`: `Math.max(jobsTotal, minCost)`. */
  function TotalCostOf(jobs: seq<ProviderWorkJob>, minCost: real): (c: real)
    ensures c >= minCost && c >= JobsTotal(jobs)
    ensures c == minCost || c == JobsTotal(jobs)
  {
    if JobsTotal(jobs) >= minCost then JobsTotal(jobs) else minCost
  }

  lemma {:induction false} JobsTotalConcat(a: seq<ProviderWorkJob>, b: seq<ProviderWorkJob>)
    ensures JobsTotal(a + b) == JobsTotal(a) + JobsTotal(b)
  {
    if b == [] {
      assert a + b == a;
    } else {
      var b' := b[..|b| - 1];
      assert (a + b)[..|a + b| - 1] == a + b';
      JobsTotalConcat(a, b');
    }
  }

  /** Appending a job adds its cost to the job sum. */
  lemma JobsTotalAppend(jobs: seq<ProviderWorkJob>, job: ProviderWorkJob)
    ensures JobsTotal(jobs + [job]) == JobsTotal(jobs) + job.cost
  {
    assert (jobs + [job])[..|jobs|] == jobs;
  }

  /** The job sum of a list split around one job. */
  lemma JobsTotalSplit(front: seq<ProviderWorkJob>, job: ProviderWorkJob, back: seq<ProviderWorkJob>)
    ensures JobsTotal(front + [job] + back) == JobsTotal(front) + job.cost + JobsTotal(back)
  {
    JobsTotalConcat(front + [job], back);
    JobsTotalAppend(front, job);
  }

  /** Removing the job at `i` subtracts its cost from the job sum. */
  lemma JobsTotalRemove(jobs: seq<ProviderWorkJob>, i: nat)
    requires i < |jobs|
    ensures JobsTotal(RemoveAt(jobs, i)) == JobsTotal(jobs) - jobs[i].cost
  {
    RemoveAtSplit(jobs, i);
    JobsTotalSplit(jobs[..i], jobs[i], jobs[i + 1..]);
    JobsTotalConcat(jobs[..i], jobs[i + 1..]);
  }

  /** A minimum cost of 100 hides one job of 40 and is exceeded by a further job of 80. */
  lemma TotalCostExample()
    ensures TotalCostOf([ProviderWorkJob("a", "a", 40.0)], 100.0) == 100.0
    ensures TotalCostOf([ProviderWorkJob("a", "a", 40.0), ProviderWorkJob("b", "b", 80.0)], 100.0) == 120.0
  {
    var one := [ProviderWorkJob("a", "a", 40.0)];
    assert one[..0] == [];
    var two := one + [ProviderWorkJob("b", "b", 80.0)];
    assert two[..1] == one;
    assert two == [ProviderWorkJob("a", "a", 40.0), ProviderWorkJob("b", "b", 80.0)];
  }

  class ProviderWork {
    const id: string
    const name: string
    var jobs: seq<ProviderWorkJob>
    const minCost: real

    constructor(id: string, name: string, jobs: seq<ProviderWorkJob>, minCost: real)
      ensures this.id == id && this.name == name && this.jobs == jobs && this.minCost == minCost
    {
      this.id := id;
      this.name := name;
      this.jobs := jobs;
      this.minCost := minCost;
    }

    /** `totalCost`: the larger of the jobs' summed cost and the minimum cost. */
    function TotalCost(): (c: real)
      reads this
      ensures c >= minCost && c >= JobsTotal(jobs)
      ensures c == minCost || c == JobsTotal(jobs)
    {
      TotalCostOf(jobs, minCost)
    }

    /** `validate`: a provider work needs at least one job. */
    function Validate(): (r: Outcome<ProviderWorkError>)
      reads this
      ensures r.Pass? <==> jobs != []
      ensures r.Fail? ==> r.error == NoJobs
    {
      if |jobs| == 0 then Fail(NoJobs) else Pass
    }

    /** `addJob`: rejects a duplicate id, otherwise appends the job, which adds its cost. */
    method AddJob(job: ProviderWorkJob) returns (r: Outcome<ProviderWorkError>)
      modifies this`jobs
      ensures r.Pass? <==> !HasId(old(jobs), JobId, job.id)
      ensures r.Fail? ==> r.error == DuplicateJob
      ensures jobs == if r.Pass? then old(jobs) + [job] else old(jobs)
      ensures r.Pass? ==> JobsTotal(jobs) == old(JobsTotal(jobs)) + job.cost
      ensures old(DistinctIds(jobs, JobId)) ==> DistinctIds(jobs, JobId)
    {
      var i := IndexOf(jobs, JobId, job.id);
      if i != -1 {
        return Fail(DuplicateJob);
      }
      if DistinctIds(jobs, JobId) {
        AppendKeepsDistinct(jobs, JobId, job);
      }
      JobsTotalAppend(jobs, job);
      jobs := jobs + [job];
      r := Pass;
    }

    /** `removeJob`: rejects an unknown id, otherwise deletes the first job with that id; the
        list may become empty. */
    method RemoveJob(job: ProviderWorkJob) returns (r: Outcome<ProviderWorkError>)
      modifies this`jobs
      ensures r.Pass? <==> HasId(old(jobs), JobId, job.id)
      ensures r.Fail? ==> r.error == UnknownJob && jobs == old(jobs)
      ensures r.Pass? ==> jobs == RemoveAt(old(jobs), IndexOf(old(jobs), JobId, job.id))
      ensures r.Pass? ==> JobsTotal(jobs) == old(JobsTotal(jobs)) - old(jobs)[IndexOf(old(jobs), JobId, job.id)].cost
      ensures r.Pass? && old(DistinctIds(jobs, JobId)) ==>
        DistinctIds(jobs, JobId) && !HasId(jobs, JobId, job.id)
    {
      var i := IndexOf(jobs, JobId, job.id);
      if i == -1 {
        return Fail(UnknownJob);
      }
      if DistinctIds(jobs, JobId) {
        RemoveKeepsDistinct(jobs, JobId, i);
      }
      JobsTotalRemove(jobs, i);
      jobs := RemoveAt(jobs, i);
      r := Pass;
    }
  }

  function WorkId(w: ProviderWork): string {
    w.id
  }

  class Provider {
    const user: Users.User
    var works: seq<ProviderWork>

    constructor(user: Users.User, works: seq<ProviderWork>)
      ensures this.user == user && this.works == works
    {
      this.user := user;
      this.works := works;
    }

    /** `validate`: the user's age check (age in whole years as input) first, then at least
        one work. */
    function Validate(age: int): (r: Outcome<ProviderError>)
      reads this
      ensures r.Pass? <==> age >= 18 && works != []
      ensures age < 18 ==> r == Fail(Underage)
      ensures age >= 18 && works == [] ==> r == Fail(NoWorks)
    {
      if Users.ValidateAge(age).Fail? then Fail(Underage)
      else if |works| == 0 then Fail(NoWorks)
      else Pass
    }

    /** `addWork`: rejects a work whose id matches an existing one, even a different object. */
    method AddWork(work: ProviderWork) returns (r: Outcome<ProviderError>)
      modifies this`works
      ensures r.Pass? <==> !HasId(old(works), WorkId, work.id)
      ensures r.Fail? ==> r.error == DuplicateWork
      ensures works == if r.Pass? then old(works) + [work] else old(works)
      ensures old(DistinctIds(works, WorkId)) ==> DistinctIds(works, WorkId)
    {
      var i := IndexOf(works, WorkId, work.id);
      if i != -1 {
        return Fail(DuplicateWork);
      }
      if DistinctIds(works, WorkId) {
        AppendKeepsDistinct(works, WorkId, work);
      }
      works := works + [work];
      r := Pass;
    }

    /** `removeWork`: rejects an unknown id, otherwise deletes the first work with that id; the
        provider may be left without works. */
    method RemoveWork(work: ProviderWork) returns (r: Outcome<ProviderError>)
      modifies this`works
      ensures r.Pass? <==> HasId(old(works), WorkId, work.id)
      ensures r.Fail? ==> r.error == UnknownWork && works == old(works)
      ensures r.Pass? ==> works == RemoveAt(old(works), IndexOf(old(works), WorkId, work.id))
      ensures r.Pass? && old(DistinctIds(works, WorkId)) ==>
        DistinctIds(works, WorkId) && !HasId(works, WorkId, work.id)
    {
      var i := IndexOf(works, WorkId, work.id);
      if i == -1 {
        return Fail(UnknownWork);
      }
      if DistinctIds(works, WorkId) {
        RemoveKeepsDistinct(works, WorkId, i);
      }
      works := RemoveAt(works, i);
      r := Pass;
    }
  }

  /** `new ProviderWork(id, name, jobs, minCost)`: fails when `jobs` is empty. */
  method NewProviderWork(id: string, name: string, jobs: seq<ProviderWorkJob>, minCost: real)
    returns (r: Result<ProviderWork, ProviderWorkError>)
    ensures r.Ok? <==> jobs != []
    ensures r.Err? ==> r.error == NoJobs
    ensures r.Ok? ==> fresh(r.value) && r.value.id == id && r.value.name == name
    ensures r.Ok? ==> r.value.jobs == jobs && r.value.minCost == minCost
  {
    var w := new ProviderWork(id, name, jobs, minCost);
    var v := w.Validate();
    if v.Fail? {
      return Err(v.error);
    }
    return Ok(w);
  }

  /** `new Provider(..., dob, works)`: the age check first, then at least one work. */
  method NewProvider(user: Users.User, age: int, works: seq<ProviderWork>) returns (r: Result<Provider, ProviderError>)
    ensures r.Ok? <==> age >= 18 && works != []
    ensures age < 18 ==> r == Err(Underage)
    ensures age >= 18 && works == [] ==> r == Err(NoWorks)
    ensures r.Ok? ==> fresh(r.value) && r.value.user == user && r.value.works == works
  {
    var p := new Provider(user, works);
    var v := p.Validate(age);
    if v.Fail? {
      return Err(v.error);
    }
    return Ok(p);
  }
}
