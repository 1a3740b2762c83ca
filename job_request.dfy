/** The oldest request generation, `JobRequest` in src/domain/entity/request.ts: a log of
    PENDING, ACCEPTED, REJECTED, CANCELLED and DONE entries. No transition checks who calls
    it; the passed actor is recorded as given. */
module JobRequests {
  import opened Outcomes
  import opened LogTrail
  import Users

  datatype Status = Pending | Accepted | Rejected | Cancelled | Done

  type Entry = Log<Status>

  datatype Error =
    | AcceptNonPending   // "It's not possible to ACCEPT a non-pending job request"
    | RejectNonPending   // "It's not possible to REJECT a non-pending job request"
    | CancelNonPending   // "It's not possible to CANCEL a non-pending job request"
    | DoneNotAllowed     // "It's not possible to DONE a non-accepted job request or if you already DONE"

  /** The shared guard of `accept`, `reject` and `cancel`: the last entry must be PENDING. */
  function PendingCheck(logs: seq<Entry>, error: Error): (r: Outcome<Error>)
    requires logs != []
    ensures r.Pass? <==> Last(logs).status == Pending
    ensures r.Fail? ==> r.error == error
  {
    if Last(logs).status != Pending then Fail(error) else Pass
  }

  /** `done` throws only when the last entry is DONE and this user, matched by id, already has
      a DONE entry; its "not ACCEPTED" conjunct is implied by "is DONE". */
  function DoneCheck(logs: seq<Entry>, user: Users.User): (r: Outcome<Error>)
    requires logs != []
    ensures r.Fail? <==> Last(logs).status == Done && HasStatusById(logs, Done, user.id)
    ensures r.Fail? ==> r.error == DoneNotAllowed
  {
    var userAlreadyDone := HasStatusById(logs, Done, user.id);
    if Last(logs).status != Accepted && Last(logs).status == Done && userAlreadyDone then Fail(DoneNotAllowed)
    else Pass
  }

  class JobRequest {
    const id: string
    const client: Users.User
    const provider: Users.User
    var logs: seq<Entry>

    ghost predicate Valid()
      reads this
    {
      logs != []
    }

    /** The constructor takes the earlier history (empty by default) and calls `initiate`. */
    constructor(id: string, client: Users.User, provider: Users.User, logs: seq<Entry>, now: Time)
      ensures Valid()
      ensures this.id == id && this.client == client && this.provider == provider
      ensures this.logs == logs + [Log(Pending, client, now, None)]
    {
      this.id := id;
      this.client := client;
      this.provider := provider;
      this.logs := logs + [Log(Pending, client, now, None)];
    }

    /** `lastLog`: the final entry. */
    function LastLog(): (e: Entry)
      reads this
      requires Valid()
      ensures logs == logs[..|logs| - 1] + [e]
    {
      Last(logs)
    }

    /** `initiate` is public: it pushes PENDING by the client whenever it is called. */
    method Initiate(now: Time)
      modifies this`logs
      ensures Valid()
      ensures logs == old(logs) + [Log(Pending, client, now, None)]
    {
      logs := logs + [Log(Pending, client, now, None)];
    }

    method Accept(actor: Users.User, now: Time) returns (r: Outcome<Error>)
      requires Valid()
      modifies this`logs
      ensures Valid()
      ensures r == PendingCheck(old(logs), AcceptNonPending)
      ensures logs == if r.Pass? then old(logs) + [Log(Accepted, actor, now, None)] else old(logs)
    {
      r := PendingCheck(logs, AcceptNonPending);
      if r.Pass? {
        logs := logs + [Log(Accepted, actor, now, None)];
      }
    }

    method Reject(actor: Users.User, now: Time) returns (r: Outcome<Error>)
      requires Valid()
      modifies this`logs
      ensures Valid()
      ensures r == PendingCheck(old(logs), RejectNonPending)
      ensures logs == if r.Pass? then old(logs) + [Log(Rejected, actor, now, None)] else old(logs)
    {
      r := PendingCheck(logs, RejectNonPending);
      if r.Pass? {
        logs := logs + [Log(Rejected, actor, now, None)];
      }
    }

    method Cancel(actor: Users.User, now: Time) returns (r: Outcome<Error>)
      requires Valid()
      modifies this`logs
      ensures Valid()
      ensures r == PendingCheck(old(logs), CancelNonPending)
      ensures logs == if r.Pass? then old(logs) + [Log(Cancelled, actor, now, None)] else old(logs)
    {
      r := PendingCheck(logs, CancelNonPending);
      if r.Pass? {
        logs := logs + [Log(Cancelled, actor, now, None)];
      }
    }

    /** `done`. */
    method MarkDone(actor: Users.User, now: Time) returns (r: Outcome<Error>)
      requires Valid()
      modifies this`logs
      ensures Valid()
      ensures r == DoneCheck(old(logs), actor)
      ensures logs == if r.Pass? then old(logs) + [Log(Done, actor, now, None)] else old(logs)
    {
      r := DoneCheck(logs, actor);
      if r.Pass? {
        logs := logs + [Log(Done, actor, now, None)];
      }
    }
  }

  /** A successful accept, reject or cancel leaves a non-PENDING last entry, so the same call
      (or any of the three) fails right after. */
  lemma PendingTransitionNotRepeatable(logs: seq<Entry>, e: Entry, error: Error)
    requires e.status != Pending
    ensures PendingCheck(logs + [e], error) == Fail(error)
  {
    assert Last(logs + [e]) == e;
  }

  /** `done` passes whenever the last entry is not DONE (from PENDING, REJECTED or CANCELLED
      too), and whenever the user has no DONE entry of their own yet. */
  lemma DonePasses(logs: seq<Entry>, user: Users.User)
    requires logs != []
    requires Last(logs).status != Done || !HasStatusById(logs, Done, user.id)
    ensures DoneCheck(logs, user) == Pass
  {
  }

  /** A user who has just marked the request done cannot do so again straight away. */
  lemma DoneNotRepeatable(logs: seq<Entry>, user: Users.User, now: Time)
    ensures DoneCheck(logs + [Log(Done, user, now, None)], user) == Fail(DoneNotAllowed)
  {
    HistoryAppend(logs, Log(Done, user, now, None), Done, user);
  }

  /** The accept, client done, provider done, provider done again sequence: the first three
      pass and the last fails. */
  lemma DoneSequence(client: Users.User, provider: Users.User, t0: Time, t1: Time, t2: Time, t3: Time)
    requires client.id != provider.id
    ensures var l1 := [Log(Pending, client, t0, None)];
      var l2 := l1 + [Log(Accepted, provider, t1, None)];
      var l3 := l2 + [Log(Done, client, t2, None)];
      && PendingCheck(l1, AcceptNonPending) == Pass
      && DoneCheck(l2, client) == Pass
      && DoneCheck(l3, provider) == Pass
      && DoneCheck(l3 + [Log(Done, provider, t3, None)], provider) == Fail(DoneNotAllowed)
  {
    var l1 := [Log(Pending, client, t0, None)];
    var l2 := l1 + [Log(Accepted, provider, t1, None)];
    var l3 := l2 + [Log(Done, client, t2, None)];
    HistoryAppend(l2, Log(Done, client, t2, None), Done, provider);
    HistoryAppend(l1, Log(Accepted, provider, t1, None), Done, provider);
    DoneNotRepeatable(l3, provider, t3);
  }
}
