/** The middle request generation: the base lifecycle of src/domain/request/entity/request.ts
    (CREATED, BEGAN, CANCELLED, FINISHED, RATED) together with the scheduling statuses that
    src/domain/request/entity/scheduled-request.ts adds to it. The abstract base and its only
    subclass are modelled as one class whose status type is the union of both enums. */
module Requests {
  import opened Outcomes
  import opened LogTrail
  import Users
  import ProviderCatalog

  /** `RequestStatus | ScheduledRequestStatus`. */
  datatype Status = Created | Began | Cancelled | Finished | Rated | Scheduled | Rescheduled

  type Entry = Log<Status>

  datatype Error =
    | CancelAfterFinished            // "It's not possible to cancel the request if it already finished"
    | OnlyProviderCanBegin           // "Only the provider can begin the request"
    | BeginBeforeScheduledTime       // "It's not possible to begin the request before the scheduled date and time comes"
    | FinishBeforeBegan              // "It's not possible to finish the request before begin it"
    | ClientRatesBeforeFinishing     // "It's not possible to rate the request provider before finishing it"
    | ProviderRatesBeforeFinishing   // "It's not possible to rate the request client before finishing it"
    | OnlyClientCanSchedule          // "Only the client can schedule the request"
    | RescheduleNotScheduled         // "It's not possible to RESCHEDULE a not yet scheduled request"
    | OnlyClientCanReschedule        // "Only the client can reschedule the request"

  // ---- The guard clauses of each transition ----

  /** `cancel`: no actor check at all, only the history. */
  function CancelCheck(logs: seq<Entry>): (r: Outcome<Error>)
    ensures r.Pass? <==> !HasStatus(logs, Finished)
    ensures r.Fail? ==> r.error == CancelAfterFinished
  {
    if HasStatus(logs, Finished) then Fail(CancelAfterFinished) else Pass
  }

  /** The base `begin(user, additionalValidation)`: the provider check runs first, then the
      extra validation, whose outcome is passed in. */
  function BeginCheck(provider: Users.User, who: Users.User, validation: Outcome<Error>): (r: Outcome<Error>)
    ensures r.Pass? <==> who == provider && validation.Pass?
    ensures who != provider ==> r == Fail(OnlyProviderCanBegin)
    ensures who == provider ==> r == validation
  {
    if who != provider then Fail(OnlyProviderCanBegin) else validation
  }

  /** The closure `ScheduledRequest.begin` hands to the base: it throws when the scheduled
      instant lies before the clock. */
  function ScheduledTimeCheck(when: Time, now: Time): (r: Outcome<Error>)
    ensures r.Pass? <==> now <= when
    ensures r.Fail? ==> r.error == BeginBeforeScheduledTime
  {
    if when < now then Fail(BeginBeforeScheduledTime) else Pass
  }

  /** `finish`: anyone may finish, any number of times, once some BEGAN entry exists. */
  function FinishCheck(logs: seq<Entry>): (r: Outcome<Error>)
    ensures r.Pass? <==> HasStatus(logs, Began)
    ensures r.Fail? ==> r.error == FinishBeforeBegan
  {
    if !HasStatus(logs, Began) then Fail(FinishBeforeBegan) else Pass
  }

  /** `rate`: the client and the provider each need a FINISHED entry of their own; any other
      evaluator passes unchecked. The client branch is tested first. */
  function RateCheck(logs: seq<Entry>, client: Users.User, provider: Users.User, evaluator: Users.User)
    : (r: Outcome<Error>)
    ensures r.Pass? <==> ((evaluator == client || evaluator == provider) ==> HasStatusBy(logs, Finished, evaluator))
    ensures evaluator == client && !HasStatusBy(logs, Finished, evaluator) ==> r == Fail(ClientRatesBeforeFinishing)
    ensures evaluator != client && evaluator == provider && !HasStatusBy(logs, Finished, evaluator) ==>
      r == Fail(ProviderRatesBeforeFinishing)
  {
    if evaluator == client then
      if !HasStatusBy(logs, Finished, evaluator) then Fail(ClientRatesBeforeFinishing) else Pass
    else if evaluator == provider then
      if !HasStatusBy(logs, Finished, evaluator) then Fail(ProviderRatesBeforeFinishing) else Pass
    else Pass
  }

  /** `schedule`: only the role is checked, never the stage. */
  function ScheduleCheck(client: Users.User, who: Users.User): (r: Outcome<Error>)
    ensures r.Pass? <==> who == client
    ensures r.Fail? ==> r.error == OnlyClientCanSchedule
  {
    if who != client then Fail(OnlyClientCanSchedule) else Pass
  }

  /** `reschedule`: the stage is checked before the role, and only SCHEDULED (not RESCHEDULED)
      counts as scheduled. */
  function RescheduleCheck(logs: seq<Entry>, client: Users.User, who: Users.User): (r: Outcome<Error>)
    requires logs != []
    ensures r.Pass? <==> Last(logs).status == Scheduled && who == client
    ensures Last(logs).status != Scheduled ==> r == Fail(RescheduleNotScheduled)
    ensures Last(logs).status == Scheduled && who != client ==> r == Fail(OnlyClientCanReschedule)
  {
    if Last(logs).status != Scheduled then Fail(RescheduleNotScheduled)
    else if who != client then Fail(OnlyClientCanReschedule)
    else Pass
  }

  // ---- What every reachable log satisfies ----

  /** An entry a transition may append: BEGAN carries the provider, the scheduling statuses
      carry the client, and no entry has a reason. */
  predicate EntryFits(e: Entry, client: Users.User, provider: Users.User) {
    && (e.status == Began ==> e.actor == provider)
    && (e.status == Scheduled || e.status == Rescheduled ==> e.actor == client)
    && e.reason == None
  }

  /** The history ordering the guards enforce: the log opens with CREATED by the client; every
      FINISHED follows some BEGAN; no CANCELLED follows a FINISHED; a RATED by the client or the
      provider follows a FINISHED by that same user. */
  predicate WellFormed(logs: seq<Entry>, client: Users.User, provider: Users.User) {
    && logs != []
    && logs[0].status == Created && logs[0].actor == client
    && (forall i :: 0 <= i < |logs| ==> EntryFits(logs[i], client, provider))
    && (forall j :: 0 <= j < |logs| && logs[j].status == Finished ==> HasStatus(logs[..j], Began))
    && (forall i, j :: 0 <= i < j < |logs| && logs[i].status == Finished ==> logs[j].status != Cancelled)
    && (forall j :: 0 <= j < |logs| && logs[j].status == Rated && (logs[j].actor == client || logs[j].actor == provider)
          ==> HasStatusBy(logs[..j], Finished, logs[j].actor))
  }

  /** What an appended entry must satisfy for the ordering to survive. */
  predicate MayFollow(logs: seq<Entry>, e: Entry, client: Users.User, provider: Users.User) {
    && EntryFits(e, client, provider)
    && (e.status == Finished ==> HasStatus(logs, Began))
    && (e.status == Cancelled ==> !HasStatus(logs, Finished))
    && (e.status == Rated && (e.actor == client || e.actor == provider) ==> HasStatusBy(logs, Finished, e.actor))
  }

  lemma AppendKeepsWellFormed(logs: seq<Entry>, e: Entry, client: Users.User, provider: Users.User)
    requires WellFormed(logs, client, provider) && MayFollow(logs, e, client, provider)
    ensures WellFormed(logs + [e], client, provider)
  {
    var ext := logs + [e];
    assert ext[..|logs|] == logs;
    assert forall j :: 0 <= j < |logs| ==> ext[j] == logs[j] && ext[..j] == logs[..j];
    forall i, j | 0 <= i < j < |ext| && ext[i].status == Finished
      ensures ext[j].status != Cancelled
    {
      if j == |logs| {
        assert logs[i].status == Finished;
      }
    }
  }

  /** Once an entry is logged FINISHED, cancel fails for good. */
  lemma FinishedBlocksCancel(logs: seq<Entry>, later: seq<Entry>)
    requires logs <= later && HasStatus(logs, Finished)
    ensures CancelCheck(later) == Fail(CancelAfterFinished)
  {
    HistoryGrows(logs, later, Finished);
  }

  /** Once BEGAN is logged, finish passes for good. */
  lemma BeganEnablesFinish(logs: seq<Entry>, later: seq<Entry>)
    requires logs <= later && HasStatus(logs, Began)
    ensures FinishCheck(later).Pass?
  {
    HistoryGrows(logs, later, Began);
  }

  /** In a well-formed log, a FINISHED entry implies a BEGAN entry. */
  lemma FinishedImpliesBegan(logs: seq<Entry>, client: Users.User, provider: Users.User)
    requires WellFormed(logs, client, provider) && HasStatus(logs, Finished)
    ensures HasStatus(logs, Began)
  {
    var j :| 0 <= j < |logs| && logs[j].status == Finished;
    var i :| 0 <= i < j && logs[..j][i].status == Began;
    assert logs[i] == logs[..j][i];
  }

  /** In a well-formed log no CANCELLED entry follows a FINISHED one. */
  lemma CancelledNeverAfterFinished(logs: seq<Entry>, client: Users.User, provider: Users.User, i: nat, j: nat)
    requires WellFormed(logs, client, provider)
    requires i < j < |logs| && logs[j].status == Cancelled
    ensures logs[i].status != Finished
  {
  }

  class ScheduledRequest {
    const id: string
    const client: Users.User
    const provider: Users.User
    const work: ProviderCatalog.ProviderWork
    /** `when`: fixed at construction; no method changes it. */
    const when: Time
    var logs: seq<Entry>

    ghost predicate Valid()
      reads this
    {
      WellFormed(logs, client, provider)
    }

    /** `constructor` + `initialize`: the log starts with CREATED by the client. */
    constructor(id: string, client: Users.User, provider: Users.User, work: ProviderCatalog.ProviderWork,
                when: Time, now: Time)
      ensures Valid()
      ensures this.id == id && this.client == client && this.provider == provider
      ensures this.work == work && this.when == when
      ensures logs == [Log(Created, client, now, None)]
    {
      this.id := id;
      this.client := client;
      this.provider := provider;
      this.work := work;
      this.when := when;
      logs := [Log(Created, client, now, None)];
    }

    /** `currentLog`: the last entry of the log; BEGAN is the provider's, the scheduling
        statuses are the client's, and no entry has a reason. */
    function CurrentLog(): (e: Entry)
      reads this
      requires Valid()
      ensures logs == logs[..|logs| - 1] + [e]
      ensures EntryFits(e, client, provider)
    {
      Last(logs)
    }

    /** `totalCost`: the bound work's total cost, which is never below the work's minimum nor
        below the sum of its jobs' costs. */
    function TotalCost(): (c: real)
      reads this, work
      ensures c == work.TotalCost()
      ensures c >= work.minCost && c >= ProviderCatalog.JobsTotal(work.jobs)
    {
      work.TotalCost()
    }

    /** `saveLog`: pushes one entry stamped with the clock. */
    method SaveLog(status: Status, user: Users.User, now: Time)
      requires Valid() && MayFollow(logs, Log(status, user, now, None), client, provider)
      modifies this`logs
      ensures Valid()
      ensures logs == old(logs) + [Log(status, user, now, None)]
    {
      AppendKeepsWellFormed(logs, Log(status, user, now, None), client, provider);
      logs := logs + [Log(status, user, now, None)];
    }

    method Cancel(user: Users.User, now: Time) returns (r: Outcome<Error>)
      requires Valid()
      modifies this`logs
      ensures Valid()
      ensures r == CancelCheck(old(logs))
      ensures logs == if r.Pass? then old(logs) + [Log(Cancelled, user, now, None)] else old(logs)
    {
      r := CancelCheck(logs);
      if r.Pass? {
        SaveLog(Cancelled, user, now);
      }
    }

    /** The base `begin`: `validation` is the outcome of the extra check the subclass supplies;
        when it fails nothing is appended. */
    method BeginWith(user: Users.User, validation: Outcome<Error>, now: Time) returns (r: Outcome<Error>)
      requires Valid()
      modifies this`logs
      ensures Valid()
      ensures r == BeginCheck(provider, user, validation)
      ensures logs == if r.Pass? then old(logs) + [Log(Began, user, now, None)] else old(logs)
    {
      r := BeginCheck(provider, user, validation);
      if r.Pass? {
        SaveLog(Began, user, now);
      }
    }

    /** `ScheduledRequest.begin`: the base begin with the scheduled-time check. */
    method Begin(user: Users.User, now: Time) returns (r: Outcome<Error>)
      requires Valid()
      modifies this`logs
      ensures Valid()
      ensures r.Pass? <==> user == provider && now <= when
      ensures user != provider ==> r == Fail(OnlyProviderCanBegin)
      ensures user == provider && when < now ==> r == Fail(BeginBeforeScheduledTime)
      ensures logs == if r.Pass? then old(logs) + [Log(Began, user, now, None)] else old(logs)
    {
      r := BeginWith(user, ScheduledTimeCheck(when, now), now);
    }

    method Finish(user: Users.User, now: Time) returns (r: Outcome<Error>)
      requires Valid()
      modifies this`logs
      ensures Valid()
      ensures r == FinishCheck(old(logs))
      ensures logs == if r.Pass? then old(logs) + [Log(Finished, user, now, None)] else old(logs)
    {
      r := FinishCheck(logs);
      if r.Pass? {
        SaveLog(Finished, user, now);
      }
    }

    method Rate(evaluator: Users.User, now: Time) returns (r: Outcome<Error>)
      requires Valid()
      modifies this`logs
      ensures Valid()
      ensures r == RateCheck(old(logs), client, provider, evaluator)
      ensures logs == if r.Pass? then old(logs) + [Log(Rated, evaluator, now, None)] else old(logs)
    {
      r := RateCheck(logs, client, provider, evaluator);
      if r.Pass? {
        SaveLog(Rated, evaluator, now);
      }
    }

    /** `schedule`: the entry is attributed to the client. */
    method Schedule(user: Users.User, now: Time) returns (r: Outcome<Error>)
      requires Valid()
      modifies this`logs
      ensures Valid()
      ensures r == ScheduleCheck(client, user)
      ensures logs == if r.Pass? then old(logs) + [Log(Scheduled, client, now, None)] else old(logs)
    {
      r := ScheduleCheck(client, user);
      if r.Pass? {
        SaveLog(Scheduled, client, now);
      }
    }

    method Reschedule(user: Users.User, now: Time) returns (r: Outcome<Error>)
      requires Valid()
      modifies this`logs
      ensures Valid()
      ensures r == RescheduleCheck(old(logs), client, user)
      ensures logs == if r.Pass? then old(logs) + [Log(Rescheduled, user, now, None)] else old(logs)
    {
      r := RescheduleCheck(logs, client, user);
      if r.Pass? {
        SaveLog(Rescheduled, user, now);
      }
    }
  }

  /** A reschedule leaves RESCHEDULED as the current stage, so a second one in a row fails. */
  lemma RescheduleNotRepeatable(logs: seq<Entry>, client: Users.User, who: Users.User, now: Time)
    requires logs != [] && RescheduleCheck(logs, client, who).Pass?
    ensures RescheduleCheck(logs + [Log(Rescheduled, who, now, None)], client, who) == Fail(RescheduleNotScheduled)
  {
  }
}
