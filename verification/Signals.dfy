/** Signals to task processes: the authority validator over the task store and the lifecycle leases
    (internal/recovery/process_signal_authority.go, internal/execution/timeout.go). */
module Signals {
  import opened Options
  import opened TaskDomain
  import opened TaskSnapshots
  import opened PendingModel
  import Leases

  datatype Kind = Terminate | Kill

  /** A signal sent, with what was true at that moment. */
  datatype Delivery = Delivery(authority: Authority, kind: Kind, stored: Snapshot, leases: Leases.Table)

  datatype System = System(tasks: map<TaskId, Snapshot>, leases: Leases.Table, log: seq<Delivery>)

  // ---- the validator ----

  predicate ValidAuthority(a: Authority) {
    a.taskId != "" && a.pid > 0 && a.startedAt != UNSET && a.expected in {StTimeout, StCancelling}
  }

  predicate Matches(s: Snapshot, a: Authority) {
    s.taskId == a.taskId && s.pid == Some(a.pid) && s.processStartedAt == Some(a.startedAt) && s.state == a.expected
  }

  predicate LeaseHeld(t: Leases.Table, a: Authority) {
    a.generation.Some? ==> Leases.Current(t, a.taskId, a.generation.value)
  }

  datatype Verdict = Refused | LoadFailed | Executed(failed: bool)

  /** One validated signal, from taking the task's lock to giving it up. */
  function Validate(y: System, a: Authority, kind: Kind, loadFails: bool, actionFails: bool): (r: (System, Verdict)) {
    if !ValidAuthority(a) then (y, Refused)
    else if loadFails || a.taskId !in y.tasks then (y, LoadFailed)
    else if !Matches(y.tasks[a.taskId], a) || !LeaseHeld(y.leases, a) then (y, Refused)
    else (y.(log := y.log + [Delivery(a, kind, y.tasks[a.taskId], y.leases)]), Executed(actionFails))
  }

  /** A signal goes out exactly if the authority is well formed, the task loads and matches it, and a lease named
      is current: then this one signal is sent, and otherwise nothing is. */
  lemma ValidateOutcome(y: System, a: Authority, kind: Kind, loadFails: bool, actionFails: bool)
    ensures var (y', verdict) := Validate(y, a, kind, loadFails, actionFails);
            var loads := !loadFails && a.taskId in y.tasks;
            var good := loads && Matches(y.tasks[a.taskId], a) && LeaseHeld(y.leases, a);
            && (verdict.Executed? <==> ValidAuthority(a) && good)
            && (verdict.LoadFailed? <==> ValidAuthority(a) && !loads)
            && (verdict.Refused? <==> !ValidAuthority(a) || (loads && !good))
            && (verdict.Executed? ==> verdict.failed == actionFails && |y'.log| == |y.log| + 1)
            && (!verdict.Executed? ==> y'.log == y.log)
            && y'.(log := y.log) == y && |y.log| <= |y'.log| && y'.log[..|y.log|] == y.log
            && (verdict.Executed? ==>
                  var d := y'.log[|y.log|];
                  d.authority == a && d.kind == kind && d.stored == y.tasks[a.taskId] && d.leases == y.leases)
  {
  }

  /** What makes a signal legitimate, said without the validator. */
  predicate Legitimate(s: Delivery) {
    && s.stored.state in {StTimeout, StCancelling} && s.stored.state == s.authority.expected
    && s.stored.taskId == s.authority.taskId
    && s.stored.pid == Some(s.authority.pid) && s.stored.processStartedAt == Some(s.authority.startedAt)
    && (s.authority.generation.Some? ==> Leases.Current(s.leases, s.authority.taskId, s.authority.generation.value))
  }

  // ---- everything else that happens ----

  datatype Step =
    | Create(id: TaskId, snapshot: Snapshot)
    | Save(id: TaskId, op: TaskDomain.Op, at: Time)
    | Amend(id: TaskId, snapshot: Snapshot)
    | Lease(lease: Leases.Op)
    | Signal(authority: Authority, kind: Kind, loadFails: bool, actionFails: bool)

  /** The stored task after an operation on it, saved the way every use case saves. */
  function Saved(s: Snapshot, op: TaskDomain.Op, at: Time): Option<Snapshot> {
    if Restore(s).None? || Apply(Restore(s).value, op).Fail? then None
    else WithTask(s, Apply(Restore(s).value, op).task, at)
  }

  /** Other rewrites of a snapshot leave alone who the task is, its process and its state. */
  predicate SameCore(s: Snapshot, n: Snapshot) {
    s.taskId == n.taskId && s.pid == n.pid && s.processStartedAt == n.processStartedAt && s.state == n.state
  }

  function Next(y: System, e: Step): System {
    match e
    case Create(id, s) => if id in y.tasks then y else y.(tasks := y.tasks[id := s])
    case Save(id, op, at) =>
      if id !in y.tasks || Saved(y.tasks[id], op, at).None? then y
      else y.(tasks := y.tasks[id := Saved(y.tasks[id], op, at).value])
    case Amend(id, n) => if id in y.tasks && SameCore(y.tasks[id], n) then y.(tasks := y.tasks[id := n]) else y
    case Lease(op) => y.(leases := Leases.Step(y.leases, op))
    case Signal(a, kind, loadFails, actionFails) => Validate(y, a, kind, loadFails, actionFails).0
  }

  function Run(y: System, steps: seq<Step>): System
    decreases |steps|
  {
    if steps == [] then y else Run(Next(y, steps[0]), steps[1..])
  }

  const EMPTY: System := System(map[], Leases.UNOWNED, [])

  // ---- safety ----

  ghost predicate AllLegitimate(y: System) {
    Leases.Wf(y.leases) && forall i :: 0 <= i < |y.log| ==> Legitimate(y.log[i])
  }

  lemma NextLegitimate(y: System, e: Step)
    requires AllLegitimate(y)
    ensures AllLegitimate(Next(y, e))
  {
    if e.Lease? {
      Leases.LapsedForGood(y.leases, e.lease, "", 0);
    }
  }

  lemma {:induction false} EverySignalLegitimate(y: System, steps: seq<Step>)
    requires AllLegitimate(y)
    ensures AllLegitimate(Run(y, steps))
    decreases |steps|
  {
    if steps != [] {
      NextLegitimate(y, steps[0]);
      EverySignalLegitimate(Next(y, steps[0]), steps[1..]);
    }
  }

  // ---- refusals are final ----

  /** The task has been in the expected state with that process, and has since moved on. */
  predicate MovedOn(s: Snapshot, a: Authority) {
    && s.taskId == a.taskId && s.pid == Some(a.pid) && s.processStartedAt == Some(a.startedAt)
    && ((a.expected == StTimeout && Rank(s.state) >= 3) || (a.expected == StCancelling && Rank(s.state) >= 4))
  }

  predicate LeaseGone(t: Leases.Table, a: Authority) {
    a.generation.Some? && a.generation.value <= t.generation && !Leases.Current(t, a.taskId, a.generation.value)
  }

  /** The authority was good when it was drawn up: nothing later can change but that it lapses. */
  predicate Drawn(y: System, a: Authority) {
    && ValidAuthority(a) && Leases.Wf(y.leases) && a.taskId in y.tasks
    && (Matches(y.tasks[a.taskId], a) || MovedOn(y.tasks[a.taskId], a))
    && (a.generation.Some? ==> a.generation.value <= y.leases.generation)
  }

  predicate Lapsed(y: System, a: Authority) {
    Drawn(y, a) && (MovedOn(y.tasks[a.taskId], a) || LeaseGone(y.leases, a))
  }

  lemma SavedMovesOn(s: Snapshot, a: Authority, op: TaskDomain.Op, at: Time)
    requires ValidAuthority(a) && Saved(s, op, at).Some?
    ensures Matches(s, a) ==> Matches(Saved(s, op, at).value, a) || MovedOn(Saved(s, op, at).value, a)
    ensures MovedOn(s, a) ==> MovedOn(Saved(s, op, at).value, a)
  {
    var t := Restore(s).value;
    ApplyProgress(t, op);
    ApplyKeepsIdentity(t, op);
  }

  lemma NextLapses(y: System, e: Step, a: Authority)
    requires Drawn(y, a)
    ensures Drawn(Next(y, e), a)
    ensures Lapsed(y, a) ==> Lapsed(Next(y, e), a)
  {
    match e
    case Save(id, op, at) =>
      if id == a.taskId && Saved(y.tasks[id], op, at).Some? {
        SavedMovesOn(y.tasks[id], a, op, at);
      }
    case Lease(op) =>
      if a.generation.Some? {
        Leases.LapsedForGood(y.leases, op, a.taskId, a.generation.value);
      } else {
        Leases.LapsedForGood(y.leases, op, a.taskId, 0);
      }
    case _ =>
  }

  /** The signals sent under an authority. */
  function Under(log: seq<Delivery>, a: Authority): seq<Delivery>
  {
    if log == [] then []
    else if log[|log| - 1].authority == a then Under(log[..|log| - 1], a) + [log[|log| - 1]]
    else Under(log[..|log| - 1], a)
  }

  lemma LapsedSendsNothing(y: System, e: Step, a: Authority)
    requires Lapsed(y, a)
    ensures Under(Next(y, e).log, a) == Under(y.log, a)
  {
    var log := Next(y, e).log;
    if log != y.log {
      assert log[..|log| - 1] == y.log;
    }
  }

  /** Once an authority has lapsed, no signal is sent under it ever again. */
  lemma {:induction false} NoSignalAfterLapse(y: System, a: Authority, steps: seq<Step>)
    requires Lapsed(y, a)
    ensures Lapsed(Run(y, steps), a) && Under(Run(y, steps).log, a) == Under(y.log, a)
    decreases |steps|
  {
    if steps != [] {
      NextLapses(y, steps[0], a);
      LapsedSendsNothing(y, steps[0], a);
      NoSignalAfterLapse(Next(y, steps[0]), a, steps[1..]);
    }
  }

  lemma {:induction false} RunDrawn(y: System, a: Authority, steps: seq<Step>)
    requires Drawn(y, a)
    ensures Drawn(Run(y, steps), a)
    decreases |steps|
  {
    if steps != [] {
      NextLapses(y, steps[0], a);
      RunDrawn(Next(y, steps[0]), a, steps[1..]);
    }
  }

  /** An authority drawn up while it matched is refused exactly when it has lapsed, and the refusal is
      final: giving up the claim to signal for good loses nothing. */
  lemma RefusalIsFinal(y: System, a: Authority, before: seq<Step>, kind: Kind, actionFails: bool, after: seq<Step>)
    requires Drawn(y, a)
    ensures var m := Run(y, before);
            && (Validate(m, a, kind, false, actionFails).1 == Refused <==> Lapsed(m, a))
            && (Lapsed(m, a) ==> Under(Run(m, after).log, a) == Under(m.log, a))
  {
    RunDrawn(y, a, before);
    var m := Run(y, before);
    if Lapsed(m, a) {
      NoSignalAfterLapse(m, a, after);
    }
  }

  /** The whole story, from an empty system: an authority drawn up while it is good sends nothing from
      the moment the task leaves the expected state or the lease ends. */
  lemma NoSignalAfterMovingOn(start: seq<Step>, a: Authority, during: seq<Step>, after: seq<Step>)
    requires ValidAuthority(a) && a.taskId in Run(EMPTY, start).tasks
    requires Matches(Run(EMPTY, start).tasks[a.taskId], a) && LeaseHeld(Run(EMPTY, start).leases, a)
    ensures var m := Run(Run(EMPTY, start), during);
            a.taskId in m.tasks
            && (m.tasks[a.taskId].state != a.expected || !LeaseHeld(m.leases, a) ==>
                  Under(Run(m, after).log, a) == Under(m.log, a))
  {
    EverySignalLegitimate(EMPTY, start);
    RunDrawn(Run(EMPTY, start), a, during);
    var m := Run(Run(EMPTY, start), during);
    if m.tasks[a.taskId].state != a.expected || !LeaseHeld(m.leases, a) {
      NoSignalAfterLapse(m, a, after);
    }
  }
}
