/** The newest request lifecycle, src/domain/service-request/entity/service-request.ts. A request
    binds a client and a provider to a scheduled instant and keeps an append-only log; each
    transition checks the actor's identity and the current stage or the history, then appends one
    entry. The guards are modelled exactly as the source writes them: reschedule, cancel, confirm
    and refuse throw when the current stage IS scheduled or rescheduled, start throws once the
    scheduled instant has passed, and finish and rate throw as soon as the history holds a
    STARTED entry. */
module ServiceRequests {
  import opened Outcomes
  import opened LogTrail
  import Users

  datatype Status =
    | Created | Scheduled | Rescheduled | Cancelled | Confirmed | Refused | Started | Finished | Rated

  type Entry = Log<Status>

  /** One variant per error message the request raises. */
  datatype Error =
    | OnlyClientCanSchedule          // "Only the client can schedule the request"
    | ScheduleOnlyWhenCreated        // "The request can only be scheduled on CREATED stage"
    | OnlyClientCanReschedule        // "Only the client can reschedule the request"
    | RescheduleOnlyWhenScheduled    // "The request can only be rescheduled on SCHEDULED/RESCHEDULED stages"
    | OnlyClientCanCancel            // "Only the client can cancel the request"
    | CancelOnlyWhenScheduled        // "The request can only be canceled on SCHEDULED/RESCHEDULED stages"
    | OnlyProviderCanConfirm         // "Only the provider can confirm the request"
    | ConfirmOnlyWhenScheduled       // "The request can only be confirmed on SCHEDULED/RESCHEDULED stages"
    | OnlyProviderCanRefuse          // "Only the provider can refuse the request"
    | RefuseOnlyWhenScheduled        // "The request can only be refused on SCHEDULED/RESCHEDULED stages"
    | OnlyProviderCanStart           // "Only the provider can start the request"
    | StartOnlyWhenConfirmed         // "The request can only be started on CONFIRMED stage"
    | StartOnlyAfterScheduledTime    // "The request can only be started after the scheduled date and time"
    | FinishOnlyAfterStarted         // "The request can only be finished after STARTED stage"
    | FinishOnlyOnce                 // "The request can only be finished once"
    | RateOnlyAfterFinished          // "The request can only be rated after FINISHED stage"
    | RateOnlyOnce                   // "The request can only be rated once"
    | RatingRejected(cause: Users.UserError)  // raised by the evaluator's `rate`

  /** `[SCHEDULED, RESCHEDULED].includes(status)`. */
  predicate IsSchedulingStage(s: Status) {
    s == Scheduled || s == Rescheduled
  }

  // ---- The guard clauses of each transition, in the order the source evaluates them ----

  function ScheduleCheck(logs: seq<Entry>, client: Users.User, who: Users.User): (r: Outcome<Error>)
    requires logs != []
    ensures r.Pass? <==> who == client && Last(logs).status == Created
    ensures who != client ==> r == Fail(OnlyClientCanSchedule)
    ensures who == client && Last(logs).status != Created ==> r == Fail(ScheduleOnlyWhenCreated)
  {
    if who != client then Fail(OnlyClientCanSchedule)
    else if Last(logs).status != Created then Fail(ScheduleOnlyWhenCreated)
    else Pass
  }

  function RescheduleCheck(logs: seq<Entry>, client: Users.User, who: Users.User): (r: Outcome<Error>)
    requires logs != []
    ensures r.Pass? <==> who == client && !IsSchedulingStage(Last(logs).status)
    ensures who != client ==> r == Fail(OnlyClientCanReschedule)
    ensures who == client && IsSchedulingStage(Last(logs).status) ==> r == Fail(RescheduleOnlyWhenScheduled)
  {
    if who != client then Fail(OnlyClientCanReschedule)
    else if IsSchedulingStage(Last(logs).status) then Fail(RescheduleOnlyWhenScheduled)
    else Pass
  }

  function CancelCheck(logs: seq<Entry>, client: Users.User, who: Users.User): (r: Outcome<Error>)
    requires logs != []
    ensures r.Pass? <==> who == client && !IsSchedulingStage(Last(logs).status)
    ensures who != client ==> r == Fail(OnlyClientCanCancel)
    ensures who == client && IsSchedulingStage(Last(logs).status) ==> r == Fail(CancelOnlyWhenScheduled)
  {
    if who != client then Fail(OnlyClientCanCancel)
    else if IsSchedulingStage(Last(logs).status) then Fail(CancelOnlyWhenScheduled)
    else Pass
  }

  function ConfirmCheck(logs: seq<Entry>, provider: Users.User, who: Users.User): (r: Outcome<Error>)
    requires logs != []
    ensures r.Pass? <==> who == provider && !IsSchedulingStage(Last(logs).status)
    ensures who != provider ==> r == Fail(OnlyProviderCanConfirm)
    ensures who == provider && IsSchedulingStage(Last(logs).status) ==> r == Fail(ConfirmOnlyWhenScheduled)
  {
    if who != provider then Fail(OnlyProviderCanConfirm)
    else if IsSchedulingStage(Last(logs).status) then Fail(ConfirmOnlyWhenScheduled)
    else Pass
  }

  function RefuseCheck(logs: seq<Entry>, provider: Users.User, who: Users.User): (r: Outcome<Error>)
    requires logs != []
    ensures r.Pass? <==> who == provider && !IsSchedulingStage(Last(logs).status)
    ensures who != provider ==> r == Fail(OnlyProviderCanRefuse)
    ensures who == provider && IsSchedulingStage(Last(logs).status) ==> r == Fail(RefuseOnlyWhenScheduled)
  {
    if who != provider then Fail(OnlyProviderCanRefuse)
    else if IsSchedulingStage(Last(logs).status) then Fail(RefuseOnlyWhenScheduled)
    else Pass
  }

  /** `start` compares the scheduled instant with the clock (`now`): it throws when the
      scheduled instant is already in the past. */
  function StartCheck(logs: seq<Entry>, provider: Users.User, scheduledAt: Time, who: Users.User, now: Time)
    : (r: Outcome<Error>)
    requires logs != []
    ensures r.Pass? <==> who == provider && Last(logs).status == Confirmed && now <= scheduledAt
    ensures who != provider ==> r == Fail(OnlyProviderCanStart)
    ensures who == provider && Last(logs).status != Confirmed ==> r == Fail(StartOnlyWhenConfirmed)
    ensures who == provider && Last(logs).status == Confirmed && scheduledAt < now ==>
      r == Fail(StartOnlyAfterScheduledTime)
  {
    if who != provider then Fail(OnlyProviderCanStart)
    else if Last(logs).status != Confirmed then Fail(StartOnlyWhenConfirmed)
    else if scheduledAt < now then Fail(StartOnlyAfterScheduledTime)
    else Pass
  }

  /** `finish`: the first guard throws whenever any STARTED entry exists, so the "only once"
      guard behind it never fires. */
  function FinishCheck(logs: seq<Entry>, who: Users.User): (r: Outcome<Error>)
    ensures r.Pass? <==> !HasStatus(logs, Started)
    ensures r.Fail? ==> r.error == FinishOnlyAfterStarted
  {
    if HasStatus(logs, Started) then Fail(FinishOnlyAfterStarted)
    else if HasStatusBy(logs, Started, who) then Fail(FinishOnlyOnce)
    else Pass
  }

  /** `rate`: the same history guards as `finish`, then the evaluator's own range check. */
  function RateCheck(logs: seq<Entry>, evaluator: Users.User, rating: real): (r: Outcome<Error>)
    ensures r.Pass? <==> !HasStatus(logs, Started) && 1.0 <= rating <= 5.0
    ensures HasStatus(logs, Started) ==> r == Fail(RateOnlyAfterFinished)
    ensures !HasStatus(logs, Started) && !(1.0 <= rating <= 5.0) ==>
      r == Fail(RatingRejected(Users.InvalidRating))
  {
    if HasStatus(logs, Started) then Fail(RateOnlyAfterFinished)
    else if HasStatusBy(logs, Started, evaluator) then Fail(RateOnlyOnce)
    else
      var ranged := Users.RateCheck(rating);
      if ranged.Fail? then Fail(RatingRejected(ranged.error)) else Pass
  }

  // ---- What every reachable log satisfies ----

  predicate IsClientStatus(s: Status) {
    s == Created || s == Scheduled || s == Rescheduled || s == Cancelled
  }

  predicate IsProviderStatus(s: Status) {
    s == Confirmed || s == Refused || s == Started
  }

  /** An entry that a transition may append: the role statuses carry that role's user, and only
      a cancellation carries a reason. */
  predicate EntryFits(e: Entry, client: Users.User, provider: Users.User) {
    && (IsClientStatus(e.status) ==> e.actor == client)
    && (IsProviderStatus(e.status) ==> e.actor == provider)
    && (e.reason.Some? ==> e.status == Cancelled)
  }

  /** The log invariant: it starts with CREATED by the client, every entry fits its role, and no
      FINISHED or RATED entry ever follows a STARTED one. */
  predicate WellFormed(logs: seq<Entry>, client: Users.User, provider: Users.User) {
    && logs != []
    && logs[0].status == Created && logs[0].actor == client
    && (forall i :: 0 <= i < |logs| ==> EntryFits(logs[i], client, provider))
    && (forall i, j :: 0 <= i < j < |logs| && logs[i].status == Started ==>
          logs[j].status != Finished && logs[j].status != Rated)
  }

  lemma AppendKeepsWellFormed(logs: seq<Entry>, e: Entry, client: Users.User, provider: Users.User)
    requires WellFormed(logs, client, provider) && EntryFits(e, client, provider)
    requires (e.status == Finished || e.status == Rated) ==> !HasStatus(logs, Started)
    ensures WellFormed(logs + [e], client, provider)
  {
    var ext := logs + [e];
    assert forall i :: 0 <= i < |logs| ==> ext[i] == logs[i];
    forall i, j | 0 <= i < j < |ext| && ext[i].status == Started
      ensures ext[j].status != Finished && ext[j].status != Rated
    {
      if j == |logs| {
        assert logs[i].status == Started;
      }
    }
  }

  /** Once a STARTED entry is logged, every later finish and rate fails, whoever calls it. */
  lemma StartedBlocksFinishAndRate(logs: seq<Entry>, later: seq<Entry>, who: Users.User, rating: real)
    requires logs <= later && HasStatus(logs, Started)
    ensures FinishCheck(later, who) == Fail(FinishOnlyAfterStarted)
    ensures RateCheck(later, who, rating) == Fail(RateOnlyAfterFinished)
  {
    HistoryGrows(logs, later, Started);
  }

  /** As written, the sequence the tests drive (schedule, then confirm) stops at confirm. */
  lemma ConfirmAfterScheduleFails(client: Users.User, provider: Users.User, t0: Time, t1: Time)
    requires client != provider
    ensures var logs := [Log(Created, client, t0, None), Log(Scheduled, client, t1, None)];
      ScheduleCheck([Log(Created, client, t0, None)], client, client) == Pass &&
      ConfirmCheck(logs, provider, provider) == Fail(ConfirmOnlyWhenScheduled) &&
      RescheduleCheck(logs, client, client) == Fail(RescheduleOnlyWhenScheduled) &&
      CancelCheck(logs, client, client) == Fail(CancelOnlyWhenScheduled)
  {
  }

  /** As written, `start` goes through when the scheduled instant is still ahead of the clock,
      for instance one second ahead. */
  lemma StartAllowedBeforeScheduledTime(logs: seq<Entry>, provider: Users.User, scheduledAt: Time)
    requires logs != [] && Last(logs).status == Confirmed
    ensures StartCheck(logs, provider, scheduledAt, provider, scheduledAt - 1000) == Pass
  {
  }

  class ServiceRequest {
    const id: string
    const client: Users.User
    const provider: Users.User
    /** `when`: fixed at construction; no method changes it. */
    const scheduledAt: Time
    var logs: seq<Entry>

    ghost predicate Valid()
      reads this
    {
      WellFormed(logs, client, provider)
    }

    /** `constructor` + `initialize`: the log starts with CREATED by the client. */
    constructor(id: string, client: Users.User, provider: Users.User, scheduledAt: Time, now: Time)
      ensures Valid()
      ensures this.id == id && this.client == client && this.provider == provider
      ensures this.scheduledAt == scheduledAt
      ensures logs == [Log(Created, client, now, None)]
    {
      this.id := id;
      this.client := client;
      this.provider := provider;
      this.scheduledAt := scheduledAt;
      logs := [Log(Created, client, now, None)];
    }

    /** `currentLog`: the last entry of the log, which like every entry carries the user of
        its role, and a reason only when it is a cancellation. */
    function CurrentLog(): (e: Entry)
      reads this
      requires Valid()
      ensures logs == logs[..|logs| - 1] + [e]
      ensures EntryFits(e, client, provider)
    {
      Last(logs)
    }

    /** `saveLog`: pushes one entry stamped with the clock. */
    method SaveLog(status: Status, user: Users.User, reason: Option<string>, now: Time)
      requires Valid()
      requires EntryFits(Log(status, user, now, reason), client, provider)
      requires (status == Finished || status == Rated) ==> !HasStatus(logs, Started)
      modifies this`logs
      ensures Valid()
      ensures logs == old(logs) + [Log(status, user, now, reason)]
    {
      AppendKeepsWellFormed(logs, Log(status, user, now, reason), client, provider);
      logs := logs + [Log(status, user, now, reason)];
    }

    method Schedule(who: Users.User, now: Time) returns (r: Outcome<Error>)
      requires Valid()
      modifies this`logs
      ensures Valid()
      ensures r == ScheduleCheck(old(logs), client, who)
      ensures logs == if r.Pass? then old(logs) + [Log(Scheduled, who, now, None)] else old(logs)
    {
      r := ScheduleCheck(logs, client, who);
      if r.Pass? {
        SaveLog(Scheduled, who, None, now);
      }
    }

    method Reschedule(who: Users.User, now: Time) returns (r: Outcome<Error>)
      requires Valid()
      modifies this`logs
      ensures Valid()
      ensures r == RescheduleCheck(old(logs), client, who)
      ensures logs == if r.Pass? then old(logs) + [Log(Rescheduled, who, now, None)] else old(logs)
    {
      r := RescheduleCheck(logs, client, who);
      if r.Pass? {
        SaveLog(Rescheduled, who, None, now);
      }
    }

    /** The only transition that stores a reason. */
    method Cancel(who: Users.User, reason: string, now: Time) returns (r: Outcome<Error>)
      requires Valid()
      modifies this`logs
      ensures Valid()
      ensures r == CancelCheck(old(logs), client, who)
      ensures logs == if r.Pass? then old(logs) + [Log(Cancelled, who, now, Some(reason))] else old(logs)
    {
      r := CancelCheck(logs, client, who);
      if r.Pass? {
        SaveLog(Cancelled, who, Some(reason), now);
      }
    }

    method Confirm(who: Users.User, now: Time) returns (r: Outcome<Error>)
      requires Valid()
      modifies this`logs
      ensures Valid()
      ensures r == ConfirmCheck(old(logs), provider, who)
      ensures logs == if r.Pass? then old(logs) + [Log(Confirmed, who, now, None)] else old(logs)
    {
      r := ConfirmCheck(logs, provider, who);
      if r.Pass? {
        SaveLog(Confirmed, who, None, now);
      }
    }

    method Refuse(who: Users.User, now: Time) returns (r: Outcome<Error>)
      requires Valid()
      modifies this`logs
      ensures Valid()
      ensures r == RefuseCheck(old(logs), provider, who)
      ensures logs == if r.Pass? then old(logs) + [Log(Refused, who, now, None)] else old(logs)
    {
      r := RefuseCheck(logs, provider, who);
      if r.Pass? {
        SaveLog(Refused, who, None, now);
      }
    }

    /** The guard and the log entry read the same clock value `now`. */
    method Start(who: Users.User, now: Time) returns (r: Outcome<Error>)
      requires Valid()
      modifies this`logs
      ensures Valid()
      ensures r == StartCheck(old(logs), provider, scheduledAt, who, now)
      ensures logs == if r.Pass? then old(logs) + [Log(Started, who, now, None)] else old(logs)
    {
      r := StartCheck(logs, provider, scheduledAt, who, now);
      if r.Pass? {
        SaveLog(Started, who, None, now);
      }
    }

    method Finish(who: Users.User, now: Time) returns (r: Outcome<Error>)
      requires Valid()
      modifies this`logs
      ensures Valid()
      ensures r == FinishCheck(old(logs), who)
      ensures logs == if r.Pass? then old(logs) + [Log(Finished, who, now, None)] else old(logs)
    {
      r := FinishCheck(logs, who);
      if r.Pass? {
        SaveLog(Finished, who, None, now);
      }
    }

    /** `rate(evaluator, evaluated, rating)`: after the history guards, the evaluator rates the
        evaluated user (which pushes the rating onto the evaluated user's list or throws), and
        only then is RATED logged by the evaluator. */
    method Rate(evaluator: Users.User, evaluated: Users.User, rating: real, now: Time) returns (r: Outcome<Error>)
      requires Valid() && evaluated.Valid()
      modifies this`logs, evaluated`ratings
      ensures Valid() && evaluated.Valid()
      ensures r == RateCheck(old(logs), evaluator, rating)
      ensures logs == if r.Pass? then old(logs) + [Log(Rated, evaluator, now, None)] else old(logs)
      ensures evaluated.ratings == if r.Pass? then old(evaluated.ratings) + [rating] else old(evaluated.ratings)
    {
      if HasStatus(logs, Started) {
        return Fail(RateOnlyAfterFinished);
      } else if HasStatusBy(logs, Started, evaluator) {
        return Fail(RateOnlyOnce);
      }
      var rated := evaluator.Rate(evaluated, rating);
      if rated.Fail? {
        return Fail(RatingRejected(rated.error));
      }
      SaveLog(Rated, evaluator, None, now);
      r := Pass;
    }
  }
}
