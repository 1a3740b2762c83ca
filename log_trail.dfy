/** The log entry shared by every request generation (src/domain/@shared/interface/log.ts) and the
    history queries the requests run over their logs (`.some(...)` and the last element). */
module LogTrail {
  import opened Outcomes
  import Users

  /** A wall-clock instant in milliseconds, as `Date` compares. */
  type Time = int

  /** One entry: the status reached, the acting user, the instant and an optional reason. */
  datatype Log<S> = Log(status: S, actor: Users.User, at: Time, reason: Option<string>)

  /** `logs[logs.length - 1]`: the current entry. */
  function Last<S>(logs: seq<Log<S>>): Log<S>
    requires logs != []
  {
    logs[|logs| - 1]
  }

  /** `logs.some((log) => log.status === s)`. */
  predicate HasStatus<S(==)>(logs: seq<Log<S>>, s: S) {
    exists i :: 0 <= i < |logs| && logs[i].status == s
  }

  /** `logs.some((log) => log.status === s && log.by === u)`: compared by reference. */
  predicate HasStatusBy<S(==)>(logs: seq<Log<S>>, s: S, u: Users.User) {
    exists i :: 0 <= i < |logs| && logs[i].status == s && logs[i].actor == u
  }

  /** `logs.some((l) => l.status === s && l.changedBy.id === id)`: compared by id. */
  predicate HasStatusById<S(==)>(logs: seq<Log<S>>, s: S, id: string) {
    exists i :: 0 <= i < |logs| && logs[i].status == s && logs[i].actor.id == id
  }

  /** How the history queries change when one entry is appended. */
  lemma HistoryAppend<S>(logs: seq<Log<S>>, e: Log<S>, s: S, u: Users.User)
    ensures HasStatus(logs + [e], s) <==> HasStatus(logs, s) || e.status == s
    ensures HasStatusBy(logs + [e], s, u) <==> HasStatusBy(logs, s, u) || (e.status == s && e.actor == u)
    ensures HasStatusById(logs + [e], s, u.id) <==> HasStatusById(logs, s, u.id) || (e.status == s && e.actor.id == u.id)
  {
    var ext := logs + [e];
    assert ext[|logs|] == e;
    assert forall i :: 0 <= i < |logs| ==> ext[i] == logs[i];
  }

  /** A status once in the history stays there as the history grows. */
  lemma {:induction false} HistoryGrows<S>(logs: seq<Log<S>>, later: seq<Log<S>>, s: S)
    requires logs <= later
    ensures HasStatus(logs, s) ==> HasStatus(later, s)
  {
    if HasStatus(logs, s) {
      var i :| 0 <= i < |logs| && logs[i].status == s;
      assert later[i] == logs[i];
    }
  }
}
