/** Where each operation on the pending set leaves its entry: when a claim is granted, what a settlement means
    for every later claim, and what nothing touches (internal/recovery/pending.go). */
module PendingEffects {
  import opened Options
  import TaskDomain
  import opened PendingModel

  type TaskId = TaskDomain.TaskId

  // ---- claims ----

  /** Waits to be sent under this authority and no other. */
  predicate Sendable(p: Pending, id: TaskId, a: Authority) {
    id in p.entries && p.entries[id].stage == Unsent && p.entries[id].authority == a
  }

  predicate HasClaim(p: Pending, id: TaskId) {
    id in p.entries && p.entries[id].stage == Claimed
  }

  /** What a claim is answered, by what its entry is; initial: by the door for the first sender. */
  predicate AnsweredFor(p: Pending, id: TaskId, a: Authority, initial: bool, r: (Pending, ClaimOutcome)) {
    && (r.1.Acquired? <==> Sendable(p, id, a) || (initial && id !in p.entries))
    && (r.1.NotFound? <==> !initial && id !in p.entries)
    && (r.1.Busy? <==> HasClaim(p, id))
    && (r.1.WasSent? <==> Level(p, id) == 2)
    && (r.1.MustConfirm? <==> Level(p, id) != 2 && id in p.entries && !HasClaim(p, id) && !Sendable(p, id, a))
    && (r.1.Acquired? ==> r.1.claim == Claim(id, p.nextToken + 1, a) && Owns(r.0, r.1.claim)
                          && r.0.nextToken == p.nextToken + 1 && r.0.entries[id].authority == a)
    && (r.1.MustConfirm? ==> Level(r.0, id) == 1 && r.0.nextToken == p.nextToken)
    && (r.1.NotFound? || r.1.Busy? || r.1.WasSent? ==> r.0 == p)
  }

  /** Each answer arises exactly in its own situation; a wrong authority closes the entry to sending. */
  lemma ClaimAnswers(p: Pending, id: TaskId, a: Authority)
    ensures AnsweredFor(p, id, a, false, ClaimForSend(p, id, a))
    ensures AnsweredFor(p, id, a, true, ClaimInitialSend(p, id, a))
  {
  }

  predicate Acquires(op: Op) {
    op.ClaimOp? || op.InitialOp?
  }

  /** A claim while it is held, whatever the others do meanwhile: its entry keeps the authority it was granted
      under, and remembers whether it was there, unsent, before the first sender claimed it. */
  lemma HeldClaim(p: Pending, op: Op, ops: seq<Op>)
    requires Wf(p) && Acquires(op) && OutcomeOf(p, op).Acquired?
    requires forall i :: 0 <= i < |ops| ==> Foreign(ops[i], OutcomeOf(p, op).claim.token)
    ensures var claim, p' := OutcomeOf(p, op).claim, Steps(Step(p, op), ops);
            && Wf(p') && Owns(p', claim) && claim.authority == op.a && claim.taskId == op.id
            && p'.entries[op.id].authority == op.a
            && p'.entries[op.id].initial == (op.InitialOp? && op.id in p.entries)
  {
    StepWf(p, op);
    ForeignersKeep(Step(p, op), OutcomeOf(p, op).claim, ops);
  }

  // ---- settlements ----

  predicate NeverRemoved(ops: seq<Op>, id: TaskId) {
    forall i :: 0 <= i < |ops| ==> ops[i] != RemoveOp(id)
  }

  lemma StepStaysUp(p: Pending, op: Op, id: TaskId)
    requires Wf(p) && Level(p, id) > 0 && op != RemoveOp(id)
    ensures Level(p, id) <= Level(Step(p, op), id)
  {
  }

  /** Above the bottom level only a removal of the task itself takes an entry down. */
  lemma {:induction false} StaysUp(p: Pending, ops: seq<Op>, id: TaskId)
    requires Wf(p) && Level(p, id) > 0 && NeverRemoved(ops, id)
    ensures Level(p, id) <= Level(Steps(p, ops), id)
    decreases |ops|
  {
    if ops != [] {
      StepWf(p, ops[0]);
      StepStaysUp(p, ops[0], id);
      StaysUp(Step(p, ops[0]), ops[1..], id);
    }
  }

  /** A completed send is final: until the task itself is removed, by either door and under any authority, the
      answer to a claim is that it was sent. */
  lemma CompletedIsSent(p: Pending, claim: Claim, ops: seq<Op>, a: Authority)
    requires Wf(p) && Owns(p, claim) && NeverRemoved(ops, claim.taskId)
    ensures var (p', ok) := Settle(p, claim, Complete);
            && ok && Level(p', claim.taskId) == 2
            && ClaimForSend(Steps(p', ops), claim.taskId, a) == (Steps(p', ops), WasSent)
            && ClaimInitialSend(Steps(p', ops), claim.taskId, a) == (Steps(p', ops), WasSent)
  {
    var p' := Settle(p, claim, Complete).0;
    StepWf(p, SettleOp(claim, Complete));
    StaysUp(p', ops, claim.taskId);
  }

  /** An invalidated one may only be confirmed: at once that is the answer, and no later claim is granted until
      the task itself is removed. */
  lemma InvalidatedMustConfirm(p: Pending, claim: Claim, ops: seq<Op>, a: Authority)
    requires Wf(p) && Owns(p, claim) && NeverRemoved(ops, claim.taskId)
    ensures var (p', ok) := Settle(p, claim, Invalidate);
            && ok && Level(p', claim.taskId) == 1
            && ClaimForSend(p', claim.taskId, a) == (p', MustConfirm)
            && ClaimInitialSend(p', claim.taskId, a) == (p', MustConfirm)
            && !ClaimForSend(Steps(p', ops), claim.taskId, a).1.Acquired?
            && !ClaimInitialSend(Steps(p', ops), claim.taskId, a).1.Acquired?
  {
    var p' := Settle(p, claim, Invalidate).0;
    StepWf(p, SettleOp(claim, Invalidate));
    StaysUp(p', ops, claim.taskId);
  }

  /** A released one can be tried again, by either door: exactly under the authority of the claim released. */
  lemma ReleasedIsRetried(p: Pending, op: Op, ops: seq<Op>, a: Authority)
    requires Wf(p) && Acquires(op) && OutcomeOf(p, op).Acquired?
    requires forall i :: 0 <= i < |ops| ==> Foreign(ops[i], OutcomeOf(p, op).claim.token)
    ensures var claim := OutcomeOf(p, op).claim;
            var (p', ok) := Settle(Steps(Step(p, op), ops), claim, Release);
            && ok && Sendable(p', op.id, op.a)
            && (ClaimForSend(p', op.id, a).1.Acquired? <==> a == op.a)
            && (ClaimInitialSend(p', op.id, a).1.Acquired? <==> a == op.a)
  {
    HeldClaim(p, op, ops);
  }

  /** A removed claim leaves no entry, unless the first sender had claimed one that was there: that one waits
      to be sent again under the same authority. */
  lemma RemovedClaim(p: Pending, op: Op, ops: seq<Op>)
    requires Wf(p) && Acquires(op) && OutcomeOf(p, op).Acquired?
    requires forall i :: 0 <= i < |ops| ==> Foreign(ops[i], OutcomeOf(p, op).claim.token)
    ensures var claim := OutcomeOf(p, op).claim;
            var (p', ok) := Settle(Steps(Step(p, op), ops), claim, RemoveClaim);
            && ok && (op.id in p'.entries <==> op.InitialOp? && op.id in p.entries)
            && (op.id in p'.entries ==> Sendable(p', op.id, op.a))
  {
    HeldClaim(p, op, ops);
  }

  /** A first send claimed and given up at once leaves the entries as they were before it. */
  lemma RemoveClaimUndoes(p: Pending, id: TaskId, a: Authority)
    requires Wf(p) && ClaimInitialSend(p, id, a).1.Acquired?
    requires id in p.entries ==> p.entries[id].token == 0 && !p.entries[id].initial
    ensures var (p1, outcome) := ClaimInitialSend(p, id, a);
            Settle(p1, outcome.claim, RemoveClaim).0.entries == p.entries
  {
    var (p1, outcome) := ClaimInitialSend(p, id, a);
    assert Settle(p1, outcome.claim, RemoveClaim).0.entries == p.entries;
  }

  // ---- registering and removing ----

  /** Exactly when a registration is refused, and where it takes an entry: sent is sent for good, confirm-only
      never falls back, unsent takes the newest authority. */
  lemma RegisterEffect(p: Pending, id: TaskId, d: Disposition, a: Option<Authority>)
    requires Wf(p)
    ensures var (p', r) := Register(p, id, d, a);
            && (r == Invalid <==> !RegistrationOk(id, d, a))
            && (r == AlreadyClaimed <==> RegistrationOk(id, d, a) && HasClaim(p, id))
            && (r != Registered ==> p' == p)
            && (r == Registered ==> id in p'.entries && !HasClaim(p', id) && p'.nextToken == p.nextToken
                                    && Level(p', id) == match d
                                                        case DispSent => 2
                                                        case DispConfirmOnly => (if Level(p, id) == 2 then 2 else 1)
                                                        case _ => Level(p, id))
            && (r == Registered && d == DispUnsent && Level(p, id) == 0 ==> Sendable(p', id, a.value))
  {
  }

  /** An entry is removed exactly if nobody holds a claim on it. */
  lemma RemoveEffect(p: Pending, id: TaskId)
    ensures var p' := Remove(p, id);
            && (id in p'.entries <==> HasClaim(p, id)) && (HasClaim(p, id) ==> p' == p) && p'.nextToken == p.nextToken
  {
  }

  function About(op: Op): TaskId {
    match op
    case RegisterOp(id, _, _) => id
    case ClaimOp(id, _) => id
    case InitialOp(id, _) => id
    case SettleOp(claim, _) => claim.taskId
    case RemoveOp(id) => id
  }

  /** No operation touches the entry of another task. */
  lemma OthersUntouched(p: Pending, op: Op, id: TaskId)
    requires id != About(op)
    ensures id in Step(p, op).entries <==> id in p.entries
    ensures id in p.entries ==> Step(p, op).entries[id] == p.entries[id]
  {
  }
}
