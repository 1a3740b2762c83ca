/** The guard decorators of src/domain/request/entity/request.decorators.ts. Each decorator
    replaces a method by a wrapper that reads the request's log, current entry, client or
    provider, throws its message when its condition fails, and otherwise calls the original
    method with the same arguments, whose first argument is the acting user. A guard is
    modelled as a value, a stack of guards applied to a method as a `Descriptor`. */
module RequestGuards {
  import opened Outcomes
  import opened LogTrail
  import Users
  import Requests
  import ServiceRequests

  datatype Guard<S> =
    | RequireStage(status: S, message: string)
    | RequireStages(statuses: seq<S>, message: string)
    | RequireStatus(status: S, message: string)
    | RequireStatusByUser(status: S, message: string)
    | RequireStatusByUserAndProvider(status: S, message: string)
    | StatusExists(status: S, message: string)
    | StatusExistsByUser(status: S, message: string)
    | OnlyProvider(message: string)
    | OnlyClient(message: string)

  /** What a guard may read of the request it decorates. */
  datatype View<S> = View(logs: seq<Log<S>>, client: Users.User, provider: Users.User)

  /** Whether the wrapper lets the call through; `user` is `args[0]`. The stage guards read
      the current entry, which every request has from construction on. */
  predicate Holds<S(==)>(g: Guard<S>, v: View<S>, user: Users.User): (b: bool)
    requires v.logs != []
    ensures g.RequireStage? ==> (b <==> v.logs[|v.logs| - 1].status == g.status)
    ensures g.RequireStages? ==> (b <==> exists k :: 0 <= k < |g.statuses| && g.statuses[k] == v.logs[|v.logs| - 1].status)
    ensures g.RequireStatus? ==> (b <==> exists i :: 0 <= i < |v.logs| && v.logs[i].status == g.status)
    ensures g.RequireStatusByUser? ==>
      (b <==> exists i :: 0 <= i < |v.logs| && v.logs[i].status == g.status && v.logs[i].actor == user)
    ensures g.RequireStatusByUserAndProvider? ==>
      (b <==> user != v.provider || exists i :: 0 <= i < |v.logs| && v.logs[i].status == g.status && v.logs[i].actor == user)
    ensures g.StatusExists? ==> (b <==> forall i :: 0 <= i < |v.logs| ==> v.logs[i].status != g.status)
    ensures g.StatusExistsByUser? ==>
      (b <==> forall i :: 0 <= i < |v.logs| ==> !(v.logs[i].status == g.status && v.logs[i].actor == user))
    ensures g.OnlyProvider? ==> (b <==> user == v.provider)
    ensures g.OnlyClient? ==> (b <==> user == v.client)
  {
    match g
    case RequireStage(s, _) => Last(v.logs).status == s
    case RequireStages(ss, _) => Last(v.logs).status in ss
    case RequireStatus(s, _) => HasStatus(v.logs, s)
    case RequireStatusByUser(s, _) => HasStatusBy(v.logs, s, user)
    case RequireStatusByUserAndProvider(s, _) => !(user == v.provider && !HasStatusBy(v.logs, s, user))
    case StatusExists(s, _) => !HasStatus(v.logs, s)
    case StatusExistsByUser(s, _) => !HasStatusBy(v.logs, s, user)
    case OnlyProvider(_) => user == v.provider
    case OnlyClient(_) => user == v.client
  }

  /** A call through a stack of wrappers, outermost first: the first guard that fails throws
      its own message and the original is never called; when every guard holds, the result is
      the original's on the same arguments. */
  function Decorate<S(==), A, R>(guards: seq<Guard<S>>, v: View<S>, user: Users.User, args: A,
                                 original: (Users.User, A) -> R): (r: Result<R, string>)
    requires v.logs != []
    ensures r.Ok? <==> forall i :: 0 <= i < |guards| ==> Holds(guards[i], v, user)
    ensures r.Ok? ==> r.value == original(user, args)
    ensures r.Err? ==> exists i :: (0 <= i < |guards| && !Holds(guards[i], v, user) &&
                                    r.error == guards[i].message &&
                                    forall k :: 0 <= k < i ==> Holds(guards[k], v, user))
    decreases |guards|
  {
    if guards == [] then Ok(original(user, args))
    else if !Holds(guards[0], v, user) then Err(guards[0].message)
    else
      var rest := Decorate(guards[1..], v, user, args, original);
      assert forall i :: 1 <= i < |guards| ==> guards[i] == guards[1..][i - 1];
      rest
  }

  /** A method's property descriptor: `value` is the original method wrapped by every
      decorator applied so far. Decorators are applied bottom-up, so the one applied last is
      the outermost and checks first. */
  class Descriptor<S(==), A, R> {
    const original: (Users.User, A) -> R
    var guards: seq<Guard<S>>

    constructor(original: (Users.User, A) -> R)
      ensures this.original == original && guards == []
    {
      this.original := original;
      guards := [];
    }

    /** `descriptor.value`, called with the request and the arguments. */
    function Value(v: View<S>, user: Users.User, args: A): (r: Result<R, string>)
      reads this
      requires v.logs != []
      ensures r.Ok? <==> forall i :: 0 <= i < |guards| ==> Holds(guards[i], v, user)
      ensures r.Ok? ==> r.value == original(user, args)
    {
      Decorate(guards, v, user, args, original)
    }

    /** `descriptor.value = function (...args) { ... }`: wraps the current value. */
    method Apply(g: Guard<S>)
      modifies this`guards
      ensures guards == [g] + old(guards)
      ensures forall v: View<S>, user: Users.User, args: A | v.logs != [] ::
        Value(v, user, args) == if Holds(g, v, user) then Decorate(old(guards), v, user, args, original) else Err(g.message)
    {
      guards := [g] + guards;
      forall v: View<S>, user: Users.User, args: A | v.logs != []
        ensures Value(v, user, args) == if Holds(g, v, user) then Decorate(old(guards), v, user, args, original) else Err(g.message)
      {
        assert guards[1..] == old(guards);
      }
    }
  }

  // ---- How the guards relate ----

  /** `requireStatus` and `statusExists` are exact complements. */
  lemma RequireStatusComplement<S>(s: S, m1: string, m2: string, v: View<S>, user: Users.User)
    requires v.logs != []
    ensures Holds(RequireStatus(s, m1), v, user) <==> !Holds(StatusExists(s, m2), v, user)
  {
  }

  /** `requireStatusByUser` and `statusExistsByUser` are exact complements. */
  lemma RequireStatusByUserComplement<S>(s: S, m1: string, m2: string, v: View<S>, user: Users.User)
    requires v.logs != []
    ensures Holds(RequireStatusByUser(s, m1), v, user) <==> !Holds(StatusExistsByUser(s, m2), v, user)
  {
  }

  /** `requireStatusByUserAndProvider` lets every non-provider through and, for the provider,
      agrees with `requireStatusByUser`. */
  lemma ByUserAndProviderOnlyConstrainsProvider<S>(s: S, m: string, v: View<S>, user: Users.User)
    requires v.logs != []
    ensures user != v.provider ==> Holds(RequireStatusByUserAndProvider(s, m), v, user)
    ensures user == v.provider ==>
      (Holds(RequireStatusByUserAndProvider(s, m), v, user) <==> Holds(RequireStatusByUser(s, m), v, user))
  {
  }

  /** `requireStages([s])` is `requireStage(s)`. */
  lemma SingleStage<S>(s: S, m: string, v: View<S>, user: Users.User)
    requires v.logs != []
    ensures Holds(RequireStages([s], m), v, user) <==> Holds(RequireStage(s, m), v, user)
  {
  }

  /** Stacking two guards passes exactly when both hold, and the outer one's message wins when
      both fail. */
  lemma {:induction false} TwoGuards<S, A, R>(g1: Guard<S>, g2: Guard<S>, v: View<S>, user: Users.User, args: A,
                                              original: (Users.User, A) -> R)
    requires v.logs != []
    ensures Decorate([g1, g2], v, user, args, original).Ok? <==> Holds(g1, v, user) && Holds(g2, v, user)
    ensures !Holds(g1, v, user) ==> Decorate([g1, g2], v, user, args, original) == Err(g1.message)
    ensures Holds(g1, v, user) && !Holds(g2, v, user) ==> Decorate([g1, g2], v, user, args, original) == Err(g2.message)
  {
    assert [g1, g2][1..] == [g2];
    assert [g2][1..] == [];
  }

  // ---- The inline checks of the requests, as guard stacks ----

  function RequestView(logs: seq<Requests.Entry>, client: Users.User, provider: Users.User): View<Requests.Status> {
    View(logs, client, provider)
  }

  /** `Request.cancel` is `statusExists(FINISHED)`, `finish` is `requireStatus(BEGAN)`, `begin`
      is `onlyProvider` in front of the extra validation. */
  lemma RequestChecksAsGuards(logs: seq<Requests.Entry>, client: Users.User, provider: Users.User,
                              who: Users.User, m: string)
    requires logs != []
    ensures Requests.CancelCheck(logs).Pass? <==>
      Holds(StatusExists(Requests.Finished, m), RequestView(logs, client, provider), who)
    ensures Requests.FinishCheck(logs).Pass? <==>
      Holds(RequireStatus(Requests.Began, m), RequestView(logs, client, provider), who)
    ensures Requests.BeginCheck(provider, who, Pass).Pass? <==>
      Holds(OnlyProvider(m), RequestView(logs, client, provider), who)
  {
  }

  /** `Request.rate` is `requireStatusByUserAndProvider(FINISHED)` together with
      `requireStatusByUser(FINISHED)` for the client. */
  lemma RateAsGuards(logs: seq<Requests.Entry>, client: Users.User, provider: Users.User,
                     evaluator: Users.User, m: string)
    requires logs != []
    ensures Requests.RateCheck(logs, client, provider, evaluator).Pass? <==>
      Holds(RequireStatusByUserAndProvider(Requests.Finished, m), RequestView(logs, client, provider), evaluator) &&
      (evaluator == client ==> Holds(RequireStatusByUser(Requests.Finished, m), RequestView(logs, client, provider), evaluator))
  {
  }

  /** `ScheduledRequest.reschedule` is `@requireStage(SCHEDULED) @onlyClient`, messages and order
      included. */
  lemma {:induction false} RescheduleAsGuards(logs: seq<Requests.Entry>, client: Users.User, provider: Users.User,
                                              who: Users.User, args: int, original: (Users.User, int) -> int)
    requires logs != []
    ensures var d := Decorate([RequireStage(Requests.Scheduled, "stage"), OnlyClient("client")],
                              RequestView(logs, client, provider), who, args, original);
      && (Requests.RescheduleCheck(logs, client, who).Pass? <==> d.Ok?)
      && (Requests.RescheduleCheck(logs, client, who) == Fail(Requests.RescheduleNotScheduled) <==> d == Err("stage"))
      && (Requests.RescheduleCheck(logs, client, who) == Fail(Requests.OnlyClientCanReschedule) <==> d == Err("client"))
  {
    TwoGuards(RequireStage(Requests.Scheduled, "stage"), OnlyClient("client"),
              RequestView(logs, client, provider), who, args, original);
  }

  function ServiceView(logs: seq<ServiceRequests.Entry>, client: Users.User, provider: Users.User)
    : View<ServiceRequests.Status>
  {
    View(logs, client, provider)
  }

  /** `ServiceRequest.schedule` is `@onlyClient @requireStage(CREATED)`; as written, its
      `finish` is `statusExists(STARTED)` rather than `requireStatus(STARTED)`, and for the
      client its `reschedule` passes exactly when `requireStages([SCHEDULED, RESCHEDULED])`
      would throw. */
  lemma ServiceChecksAsGuards(logs: seq<ServiceRequests.Entry>, client: Users.User, provider: Users.User,
                              m: string)
    requires logs != []
    ensures forall who :: ServiceRequests.ScheduleCheck(logs, client, who).Pass? <==>
      Holds(OnlyClient(m), ServiceView(logs, client, provider), who) &&
      Holds(RequireStage(ServiceRequests.Created, m), ServiceView(logs, client, provider), who)
    ensures forall who :: ServiceRequests.FinishCheck(logs, who).Pass? <==>
      Holds(StatusExists(ServiceRequests.Started, m), ServiceView(logs, client, provider), who)
    ensures ServiceRequests.RescheduleCheck(logs, client, client).Pass? <==>
      !Holds(RequireStages([ServiceRequests.Scheduled, ServiceRequests.Rescheduled], m),
             ServiceView(logs, client, provider), client)
  {
  }
}
