/** The earlier provider aggregate of src/domain/entity/provider.ts: a provider (a user) with a
    non-empty list of provider jobs, each holding a non-empty list of priced services. */
module LegacyCatalog {
  import opened Outcomes
  import opened Collections
  import Users

  /** The error messages the earlier `Provider` can raise. */
  datatype ProviderError =
    | Underage      // "Provider must not be underage": the inherited validation names the class
    | NoJobs        // "Provider must have at least one job"
    | DuplicateJob  // "It's not possible to add the same job twice"
    | UnknownJob    // "It's not possible to remove a non-practicable job"

  /** The error messages `ProviderJob` can raise. */
  datatype ProviderJobError =
    | NoServices        // "Provider job must have at least one service"
    | DuplicateService  // "It's not possible to add the same service twice"
    | UnknownService    // "It's not possible to remove a non-practicable service"

  datatype ProviderJobService = ProviderJobService(id: string, name: string, cost: real)

  function ServiceId(s: ProviderJobService): string {
    s.id
  }

  class ProviderJob {
    const id: string
    const name: string
    var services: seq<ProviderJobService>
    const minCost: real

    constructor(id: string, name: string, services: seq<ProviderJobService>, minCost: real)
      ensures this.id == id && this.name == name && this.services == services && this.minCost == minCost
    {
      this.id := id;
      this.name := name;
      this.services := services;
      this.minCost := minCost;
    }

    /** `validate`: a provider job needs at least one service. */
    function Validate(): (r: Outcome<ProviderJobError>)
      reads this
      ensures r.Pass? <==> services != []
      ensures r.Fail? ==> r.error == NoServices
    {
      if |services| == 0 then Fail(NoServices) else Pass
    }

    /** `addService`: rejects a duplicate id, otherwise appends the service. */
    method AddService(service: ProviderJobService) returns (r: Outcome<ProviderJobError>)
      modifies this`services
      ensures r.Pass? <==> !HasId(old(services), ServiceId, service.id)
      ensures r.Fail? ==> r.error == DuplicateService
      ensures services == if r.Pass? then old(services) + [service] else old(services)
      ensures old(DistinctIds(services, ServiceId)) ==> DistinctIds(services, ServiceId)
    {
      var i := IndexOf(services, ServiceId, service.id);
      if i != -1 {
        return Fail(DuplicateService);
      }
      if DistinctIds(services, ServiceId) {
        AppendKeepsDistinct(services, ServiceId, service);
      }
      services := services + [service];
      r := Pass;
    }

    /** `removeService`: rejects an unknown id, otherwise deletes the first service with that
        id; the list may become empty. */
    method RemoveService(service: ProviderJobService) returns (r: Outcome<ProviderJobError>)
      modifies this`services
      ensures r.Pass? <==> HasId(old(services), ServiceId, service.id)
      ensures r.Fail? ==> r.error == UnknownService && services == old(services)
      ensures r.Pass? ==> services == RemoveAt(old(services), IndexOf(old(services), ServiceId, service.id))
      ensures r.Pass? && old(DistinctIds(services, ServiceId)) ==>
        DistinctIds(services, ServiceId) && !HasId(services, ServiceId, service.id)
    {
      var i := IndexOf(services, ServiceId, service.id);
      if i == -1 {
        return Fail(UnknownService);
      }
      if DistinctIds(services, ServiceId) {
        RemoveKeepsDistinct(services, ServiceId, i);
      }
      services := RemoveAt(services, i);
      r := Pass;
    }
  }

  function JobId(j: ProviderJob): string {
    j.id
  }

  class Provider {
    const user: Users.User
    var jobs: seq<ProviderJob>

    constructor(user: Users.User, jobs: seq<ProviderJob>)
      ensures this.user == user && this.jobs == jobs
    {
      this.user := user;
      this.jobs := jobs;
    }

    /** `validate`: the user's age check (age in whole years as input) first, then at least
        one job. */
    function Validate(age: int): (r: Outcome<ProviderError>)
      reads this
      ensures r.Pass? <==> age >= 18 && jobs != []
      ensures age < 18 ==> r == Fail(Underage)
      ensures age >= 18 && jobs == [] ==> r == Fail(NoJobs)
    {
      if Users.ValidateAge(age).Fail? then Fail(Underage)
      else if |jobs| == 0 then Fail(NoJobs)
      else Pass
    }

    /** `addJob`: rejects a job whose id matches an existing one, otherwise appends it. */
    method AddJob(job: ProviderJob) returns (r: Outcome<ProviderError>)
      modifies this`jobs
      ensures r.Pass? <==> !HasId(old(jobs), JobId, job.id)
      ensures r.Fail? ==> r.error == DuplicateJob
      ensures jobs == if r.Pass? then old(jobs) + [job] else old(jobs)
      ensures old(DistinctIds(jobs, JobId)) ==> DistinctIds(jobs, JobId)
    {
      var i := IndexOf(jobs, JobId, job.id);
      if i != -1 {
        return Fail(DuplicateJob);
      }
      if DistinctIds(jobs, JobId) {
        AppendKeepsDistinct(jobs, JobId, job);
      }
      jobs := jobs + [job];
      r := Pass;
    }

    /** `removeJob`: rejects an unknown id, otherwise deletes the first job with that id. */
    method RemoveJob(job: ProviderJob) returns (r: Outcome<ProviderError>)
      modifies this`jobs
      ensures r.Pass? <==> HasId(old(jobs), JobId, job.id)
      ensures r.Fail? ==> r.error == UnknownJob && jobs == old(jobs)
      ensures r.Pass? ==> jobs == RemoveAt(old(jobs), IndexOf(old(jobs), JobId, job.id))
      ensures r.Pass? && old(DistinctIds(jobs, JobId)) ==>
        DistinctIds(jobs, JobId) && !HasId(jobs, JobId, job.id)
    {
      var i := IndexOf(jobs, JobId, job.id);
      if i == -1 {
        return Fail(UnknownJob);
      }
      if DistinctIds(jobs, JobId) {
        RemoveKeepsDistinct(jobs, JobId, i);
      }
      jobs := RemoveAt(jobs, i);
      r := Pass;
    }
  }

  /** `new ProviderJob(id, name, services, minCost)`: fails when `services` is empty. */
  method NewProviderJob(id: string, name: string, services: seq<ProviderJobService>, minCost: real)
    returns (r: Result<ProviderJob, ProviderJobError>)
    ensures r.Ok? <==> services != []
    ensures r.Err? ==> r.error == NoServices
    ensures r.Ok? ==> fresh(r.value) && r.value.id == id && r.value.name == name
    ensures r.Ok? ==> r.value.services == services && r.value.minCost == minCost
  {
    var j := new ProviderJob(id, name, services, minCost);
    var v := j.Validate();
    if v.Fail? {
      return Err(v.error);
    }
    return Ok(j);
  }

  /** `new Provider(..., dob, jobs)`: the age check first, then at least one job. */
  method NewProvider(user: Users.User, age: int, jobs: seq<ProviderJob>) returns (r: Result<Provider, ProviderError>)
    ensures r.Ok? <==> age >= 18 && jobs != []
    ensures age < 18 ==> r == Err(Underage)
    ensures age >= 18 && jobs == [] ==> r == Err(NoJobs)
    ensures r.Ok? ==> fresh(r.value) && r.value.user == user && r.value.jobs == jobs
  {
    var p := new Provider(user, jobs);
    var v := p.Validate(age);
    if v.Fail? {
      return Err(v.error);
    }
    return Ok(p);
  }
}
