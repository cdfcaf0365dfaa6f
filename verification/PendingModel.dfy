/** The pending-reconciliation set: send claims with tokens, failing closed
    (internal/recovery/pending.go). */
module PendingModel {
  import opened Options
  import opened TaskDomain

  datatype Authority = Authority(taskId: TaskId, pid: int, startedAt: Time, expected: TaskState,
                                 generation: Option<nat>)

  /** The zero authority, held by entries that must not send. */
  const NO_AUTHORITY: Authority := Authority("", 0, UNSET, StQueued, None)

  datatype Claim = Claim(taskId: TaskId, token: nat, authority: Authority)

  datatype Disposition = DispUnsent | DispSent | DispConfirmOnly | DispOther

  datatype Stage = Unsent | Claimed | Sent | ConfirmOnly

  datatype Entry = Entry(taskId: TaskId, stage: Stage, authority: Authority, token: nat, initial: bool)

  /** Tokens are unbounded here; the code's are 64 bits wide. */
  datatype Pending = Pending(entries: map<TaskId, Entry>, nextToken: nat)

  const NOTHING: Pending := Pending(map[], 0)

  // ---- registering ----

  datatype Registration = Registered | Invalid | AlreadyClaimed

  predicate RegistrationOk(id: TaskId, d: Disposition, a: Option<Authority>) {
    && d != DispOther
    && (d == DispUnsent ==> a.Some? && a.value.taskId == id && a.value.pid > 0 && a.value.startedAt != UNSET)
  }

  function NewEntry(id: TaskId, d: Disposition, a: Option<Authority>): Entry {
    match d
    case DispUnsent => Entry(id, Unsent, if a.Some? then a.value else NO_AUTHORITY, 0, false)
    case DispSent => Entry(id, Sent, NO_AUTHORITY, 0, false)
    case _ => Entry(id, ConfirmOnly, NO_AUTHORITY, 0, false)
  }

  function Reregistered(e: Entry, d: Disposition, a: Option<Authority>): Entry {
    match (e.stage, d)
    case (Unsent, DispUnsent) => e.(authority := if a.Some? then a.value else NO_AUTHORITY)
    case (Unsent, DispSent) => e.(stage := Sent, authority := NO_AUTHORITY, token := 0)
    case (Unsent, DispConfirmOnly) => e.(stage := ConfirmOnly, authority := NO_AUTHORITY, token := 0)
    case (ConfirmOnly, DispSent) => e.(stage := Sent)
    case _ => e
  }

  function Register(p: Pending, id: TaskId, d: Disposition, a: Option<Authority>): (r: (Pending, Registration)) {
    if !RegistrationOk(id, d, a) then (p, Invalid)
    else if id !in p.entries then (p.(entries := p.entries[id := NewEntry(id, d, a)]), Registered)
    else if p.entries[id].stage == Claimed then (p, AlreadyClaimed)
    else (p.(entries := p.entries[id := Reregistered(p.entries[id], d, a)]), Registered)
  }

  // ---- claiming ----

  datatype ClaimOutcome = NotFound | Acquired(claim: Claim) | Busy | WasSent | MustConfirm

  function Grant(p: Pending, id: TaskId, e: Entry, initial: bool): (r: (Pending, ClaimOutcome)) {
    var token := p.nextToken + 1;
    (Pending(p.entries[id := e.(stage := Claimed, token := token, initial := initial)], token),
     Acquired(Claim(id, token, e.authority)))
  }

  function CloseDown(p: Pending, id: TaskId, e: Entry): Pending {
    p.(entries := p.entries[id := e.(stage := ConfirmOnly, authority := NO_AUTHORITY, token := 0, initial := false)])
  }

  /** A claim on an entry in any stage: granted only if unsent and under the very authority registered;
      any other authority closes the entry to sending for good. */
  function ClaimEntry(p: Pending, id: TaskId, a: Authority, initial: bool): (r: (Pending, ClaimOutcome))
    requires id in p.entries
  {
    var e := p.entries[id];
    match e.stage
    case Claimed => (p, Busy)
    case Sent => (p, WasSent)
    case ConfirmOnly => (p, MustConfirm)
    case Unsent => if e.authority != a then (CloseDown(p, id, e), MustConfirm) else Grant(p, id, e, initial)
  }

  function ClaimForSend(p: Pending, id: TaskId, a: Authority): (r: (Pending, ClaimOutcome)) {
    if id !in p.entries then (p, NotFound) else ClaimEntry(p, id, a, false)
  }

  function ClaimInitialSend(p: Pending, id: TaskId, a: Authority): (r: (Pending, ClaimOutcome)) {
    if id !in p.entries then Grant(p, id, Entry(id, Unsent, a, 0, false), false) else ClaimEntry(p, id, a, true)
  }

  // ---- settling ----

  datatype Settlement = Complete | Release | Invalidate | RemoveClaim

  predicate Owns(p: Pending, claim: Claim) {
    claim.taskId in p.entries && p.entries[claim.taskId].stage == Claimed
        && p.entries[claim.taskId].token == claim.token
  }

  /** Invalidating and removing also compare the entry's own id. */
  predicate MaySettle(p: Pending, claim: Claim, how: Settlement) {
    Owns(p, claim) && (how == Invalidate || how == RemoveClaim ==> p.entries[claim.taskId].taskId == claim.taskId)
  }

  function Settled(p: Pending, claim: Claim, how: Settlement): Pending
    requires Owns(p, claim)
  {
    var e := p.entries[claim.taskId];
    match how
    case Complete => p.(entries := p.entries[claim.taskId := e.(stage := Sent, authority := NO_AUTHORITY,
              initial := false)])
    case Release => p.(entries := p.entries[claim.taskId := e.(stage := Unsent, initial := false)])
    case Invalidate => CloseDown(p, claim.taskId, e)
    case RemoveClaim =>
      if e.initial then p.(entries := p.entries[claim.taskId := e.(stage := Unsent, token := 0, initial := false)])
      else p.(entries := p.entries - {claim.taskId})
  }

  /** Only the current owner settles; a stale or foreign token has no effect. */
  function Settle(p: Pending, claim: Claim, how: Settlement): (r: (Pending, bool)) {
    if MaySettle(p, claim, how) then (Settled(p, claim, how), true) else (p, false)
  }

  function Remove(p: Pending, id: TaskId): Pending {
    if id in p.entries && p.entries[id].stage == Claimed then p else p.(entries := p.entries - {id})
  }

  // ---- any operation ----

  datatype Op =
    | RegisterOp(id: TaskId, d: Disposition, registered: Option<Authority>)
    | ClaimOp(id: TaskId, a: Authority)
    | InitialOp(id: TaskId, a: Authority)
    | SettleOp(claim: Claim, how: Settlement)
    | RemoveOp(id: TaskId)

  function Step(p: Pending, op: Op): Pending {
    match op
    case RegisterOp(id, d, a) => Register(p, id, d, a).0
    case ClaimOp(id, a) => ClaimForSend(p, id, a).0
    case InitialOp(id, a) => ClaimInitialSend(p, id, a).0
    case SettleOp(claim, how) => Settle(p, claim, how).0
    case RemoveOp(id) => Remove(p, id)
  }

  /** Entries sit under their own id, and claimed ones hold a token already issued. */
  predicate Wf(p: Pending) {
    forall id :: id in p.entries ==>
        p.entries[id].taskId == id && (p.entries[id].stage == Claimed ==> 1 <= p.entries[id].token <= p.nextToken)
  }

  lemma StepWf(p: Pending, op: Op)
    requires Wf(p)
    ensures Wf(Step(p, op)) && p.nextToken <= Step(p, op).nextToken
  {
  }

  // ---- climbing ----

  function Level(p: Pending, id: TaskId): nat {
    if id !in p.entries then 0
    else match p.entries[id].stage
      case Unsent => 0
      case Claimed => 0
      case ConfirmOnly => 1
      case Sent => 2
  }

  predicate Deletes(op: Op) {
    op.RemoveOp? || (op.SettleOp? && op.how == RemoveClaim)
  }

  /** Without removals an entry only climbs. */
  lemma StepClimbs(p: Pending, op: Op, id: TaskId)
    requires Wf(p) && !Deletes(op)
    ensures Level(p, id) <= Level(Step(p, op), id)
  {
  }

  function Steps(p: Pending, ops: seq<Op>): Pending
    decreases |ops|
  {
    if ops == [] then p else Steps(Step(p, ops[0]), ops[1..])
  }

  lemma {:induction false} StepsClimb(p: Pending, ops: seq<Op>, id: TaskId)
    requires Wf(p) && forall i :: 0 <= i < |ops| ==> !Deletes(ops[i])
    ensures Wf(Steps(p, ops)) && Level(p, id) <= Level(Steps(p, ops), id)
    decreases |ops|
  {
    if ops != [] {
      StepWf(p, ops[0]);
      StepClimbs(p, ops[0], id);
      StepsClimb(Step(p, ops[0]), ops[1..], id);
    }
  }

  /** Once an entry has left the bottom level, no later attempt is granted a send claim, by either
      door and under any authority, unless the entry is removed first. */
  lemma NoClaimAboveBottom(p: Pending, ops: seq<Op>, id: TaskId, a: Authority)
    requires Wf(p) && Level(p, id) > 0 && forall i :: 0 <= i < |ops| ==> !Deletes(ops[i])
    ensures !ClaimForSend(Steps(p, ops), id, a).1.Acquired? && !ClaimInitialSend(Steps(p, ops), id, a).1.Acquired?
  {
    StepsClimb(p, ops, id);
  }

  // ---- owning a claim ----

  /** Operations by anyone who does not hold this token. */
  predicate Foreign(op: Op, token: nat) {
    op.SettleOp? ==> op.claim.token != token
  }

  /** Nobody else can touch an entry while its claim is held: it stays exactly as it is. */
  lemma ForeignKeeps(p: Pending, claim: Claim, op: Op)
    requires Wf(p) && Owns(p, claim) && Foreign(op, claim.token)
    ensures Owns(Step(p, op), claim) && Step(p, op).entries[claim.taskId] == p.entries[claim.taskId]
  {
  }

  lemma {:induction false} ForeignersKeep(p: Pending, claim: Claim, ops: seq<Op>)
    requires Wf(p) && Owns(p, claim) && forall i :: 0 <= i < |ops| ==> Foreign(ops[i], claim.token)
    ensures Wf(Steps(p, ops)) && Owns(Steps(p, ops), claim)
    ensures Steps(p, ops).entries[claim.taskId] == p.entries[claim.taskId]
    decreases |ops|
  {
    if ops != [] {
      StepWf(p, ops[0]);
      ForeignKeeps(p, claim, ops[0]);
      ForeignersKeep(Step(p, ops[0]), claim, ops[1..]);
    }
  }

  // ---- whole runs ----

  /** History: claims granted, in order, and the tokens of successful settlements, in order. */
  datatype World = World(p: Pending, granted: seq<Claim>, settled: seq<nat>)

  const INITIAL: World := World(NOTHING, [], [])

  function OutcomeOf(p: Pending, op: Op): ClaimOutcome {
    match op
    case ClaimOp(id, a) => ClaimForSend(p, id, a).1
    case InitialOp(id, a) => ClaimInitialSend(p, id, a).1
    case _ => NotFound
  }

  predicate Settles(p: Pending, op: Op) {
    op.SettleOp? && Settle(p, op.claim, op.how).1
  }

  function Next(w: World, op: Op): World {
    var outcome := OutcomeOf(w.p, op);
    World(Step(w.p, op),
          if outcome.Acquired? then w.granted + [outcome.claim] else w.granted,
          if Settles(w.p, op) then w.settled + [op.claim.token] else w.settled)
  }

  /** Tokens are 1, 2, 3, ... in the order granted; each granted claim either still owns its entry or
      was settled, never both and never twice. */
  ghost predicate Exclusive(w: World) {
    && Wf(w.p) && |w.granted| == w.p.nextToken
    && (forall i :: 0 <= i < |w.granted| ==> w.granted[i].token == i + 1)
    && (forall i :: 0 <= i < |w.granted| ==> (Owns(w.p, w.granted[i]) <==> w.granted[i].token !in w.settled))
    && (forall i, j :: 0 <= i < j < |w.settled| ==> w.settled[i] != w.settled[j])
    && (forall i :: 0 <= i < |w.settled| ==> 1 <= w.settled[i] <= w.p.nextToken)
    && (forall id :: id in w.p.entries && w.p.entries[id].stage == Claimed ==>
          w.granted[w.p.entries[id].token - 1].taskId == id)
  }

  /** What a step does to an issued claim: only a successful settlement of that claim ends it. */
  lemma OwnershipStep(p: Pending, op: Op, claim: Claim)
    requires Wf(p) && claim.token <= p.nextToken
    ensures Owns(Step(p, op), claim) <==> Owns(p, claim) && !(Settles(p, op) && op.claim.taskId == claim.taskId)
  {
  }

  lemma GrantStep(p: Pending, op: Op)
    requires Wf(p)
    ensures OutcomeOf(p, op).Acquired? ==>
              var claim := OutcomeOf(p, op).claim;
              !Settles(p, op) && claim.token == p.nextToken + 1 == Step(p, op).nextToken && Owns(Step(p, op), claim)
    ensures !OutcomeOf(p, op).Acquired? ==> Step(p, op).nextToken == p.nextToken
  {
  }

  /** A claimed entry after a step was claimed before it, under the same token, or was just granted. */
  lemma ClaimedStep(p: Pending, op: Op, id: TaskId)
    requires Wf(p) && id in Step(p, op).entries && Step(p, op).entries[id].stage == Claimed
    ensures || (id in p.entries && p.entries[id].stage == Claimed
                && p.entries[id].token == Step(p, op).entries[id].token)
            || (OutcomeOf(p, op).Acquired? && OutcomeOf(p, op).claim.taskId == id
                  && OutcomeOf(p, op).claim.token == Step(p, op).entries[id].token)
  {
  }

  lemma NextOwnsUnlessSettled(w: World, op: Op, i: nat)
    requires Exclusive(w) && i < |w.granted|
    ensures var w' := Next(w, op); Owns(w'.p, w.granted[i]) <==> w.granted[i].token !in w'.settled
  {
    OwnershipStep(w.p, op, w.granted[i]);
    if Settles(w.p, op) {
      assert w.granted[op.claim.token - 1].taskId == op.claim.taskId;
    }
  }

  lemma NextSettledOnce(w: World, op: Op)
    requires Exclusive(w)
    ensures var settled := Next(w, op).settled;
            && (forall i, j :: 0 <= i < j < |settled| ==> settled[i] != settled[j])
            && (forall i :: 0 <= i < |settled| ==> 1 <= settled[i] <= w.p.nextToken)
  {
    if Settles(w.p, op) {
      NamesItsGrant(w, op.claim);
    }
  }

  lemma NamesItsGrant(w: World, claim: Claim)
    requires Exclusive(w) && Owns(w.p, claim)
    ensures 1 <= claim.token <= |w.granted| && Owns(w.p, w.granted[claim.token - 1]) && claim.token !in w.settled
  {
    assert w.granted[claim.token - 1].token == claim.token;
  }

  lemma NextGranted(w: World, op: Op)
    requires Exclusive(w)
    ensures var w' := Next(w, op);
            && |w'.granted| == w'.p.nextToken && (forall i :: 0 <= i < |w'.granted| ==> w'.granted[i].token == i + 1)
            && (forall i :: 0 <= i < |w'.granted| ==>
                  (Owns(w'.p, w'.granted[i]) <==> w'.granted[i].token !in w'.settled))
  {
    var w' := Next(w, op);
    GrantStep(w.p, op);
    forall i | 0 <= i < |w'.granted| ensures Owns(w'.p, w'.granted[i]) <==> w'.granted[i].token !in w'.settled {
      if i < |w.granted| {
        NextOwnsUnlessSettled(w, op, i);
      }
    }
  }

  /** A claimed entry is the one its token was granted for. */
  lemma NextNames(w: World, op: Op, id: TaskId)
    requires Exclusive(w) && Wf(Step(w.p, op))
    requires id in Step(w.p, op).entries && Step(w.p, op).entries[id].stage == Claimed
    ensures var w' := Next(w, op);
            1 <= w'.p.entries[id].token <= |w'.granted| && w'.granted[w'.p.entries[id].token - 1].taskId == id
  {
    ClaimedStep(w.p, op, id);
    GrantStep(w.p, op);
  }

  lemma NextExclusive(w: World, op: Op)
    requires Exclusive(w)
    ensures Exclusive(Next(w, op))
  {
    var w' := Next(w, op);
    StepWf(w.p, op);
    NextGranted(w, op);
    NextSettledOnce(w, op);
    forall id | id in w'.p.entries && w'.p.entries[id].stage == Claimed
      ensures w'.granted[w'.p.entries[id].token - 1].taskId == id
    {
      NextNames(w, op, id);
    }
  }

  function Run(w: World, ops: seq<Op>): World
    decreases |ops|
  {
    if ops == [] then w else Run(Next(w, ops[0]), ops[1..])
  }

  lemma {:induction false} RunExclusive(w: World, ops: seq<Op>)
    requires Exclusive(w)
    ensures Exclusive(Run(w, ops))
    decreases |ops|
  {
    if ops != [] {
      NextExclusive(w, ops[0]);
      RunExclusive(Next(w, ops[0]), ops[1..]);
    }
  }

  lemma SettledNeverOwns(w: World, claim: Claim)
    requires Exclusive(w) && claim.token in w.settled
    ensures !Owns(w.p, claim)
  {
    if Owns(w.p, claim) {
      NamesItsGrant(w, claim);
    }
  }

  /** Over every run: no token is issued twice, no claim is settled twice, at most one outstanding
      claim per task, and a settled claim never has an effect again, whatever way it is presented. */
  lemma EveryRun(ops: seq<Op>)
    ensures var w := Run(INITIAL, ops);
            && (forall i, j :: 0 <= i < j < |w.granted| ==> w.granted[i].token != w.granted[j].token)
            && (forall i, j :: 0 <= i < j < |w.settled| ==> w.settled[i] != w.settled[j])
            && (forall i, j :: 0 <= i < j < |w.granted| && Owns(w.p, w.granted[i]) && Owns(w.p, w.granted[j]) ==>
                  w.granted[i].taskId != w.granted[j].taskId)
            && (forall claim: Claim, how :: claim.token in w.settled ==> Settle(w.p, claim, how) == (w.p, false))
  {
    RunExclusive(INITIAL, ops);
    var w := Run(INITIAL, ops);
    forall claim: Claim, how | claim.token in w.settled ensures Settle(w.p, claim, how) == (w.p, false) {
      SettledNeverOwns(w, claim);
    }
  }
}
