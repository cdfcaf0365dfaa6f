/** The goroutines that hold send claims: the reconciler's and the two of restart adoption, interleaved
    with each other and with everything else that touches the pending set, the task store and the leases
    (internal/recovery/reconcile.go, internal/recovery/adopt.go). */
module Senders {
  import opened Options
  import opened TaskDomain
  import opened TaskSnapshots
  import PM = PendingModel
  import opened Signals

  datatype Role = Reconciler | Adopter

  /** The errors of one SendAndConfirm joined into one: which kinds occur in it. */
  datatype Errors = Errors(invalid: bool, other: bool)

  const NONE: Errors := Errors(false, false)

  /** Where a sender is. Each phase ends in one atomic action; after JustAcquired its context can no
      longer be cancelled. */
  datatype Phase =
    | JustAcquired
    | Terminating
    | FirstCheck(errors: Errors)
    | Killing(errors: Errors)
    | SecondCheck(errors: Errors)
    | Rechecking
    | Confirming
    | Closing(impl: bool)
    | Resuming
    | Settling(how: PM.Settlement)
    | Done(how: PM.Settlement)

  /** History: whether the authority was good when the claim was granted, and whether the process was
      seen dead. */
  datatype Sender = Sender(role: Role, timeout: bool, claim: PM.Claim, phase: Phase, drawn: bool, sawDead: bool)

  datatype Resumption = Resumed | InFlight | ResumeFailed

  /** How the outside world answers: one field for each thing a phase may ask. */
  datatype Answer = Answer(cancelled: bool, loadFails: bool, signalFails: bool, dead: bool, livenessFails: bool,
                           lockFails: bool, killFails: bool, resumption: Resumption)

  function Joined(e: Errors, v: Verdict): Errors {
    match v
    case Refused => e.(invalid := true)
    case LoadFailed => e.(other := true)
    case Executed(failed) => e.(other := e.other || failed)
  }

  function AfterAttempt(dead: bool, e: Errors): Phase {
    if dead then Confirming
    else if e.invalid then Settling(PM.Invalidate)
    else if e == NONE then Settling(PM.Complete)
    else Rechecking
  }

  predicate StillAuthorized(y: System, a: PM.Authority) {
    a.taskId in y.tasks && Matches(y.tasks[a.taskId], a)
  }

  function Advanced(y: System, s: Sender, ans: Answer): Phase {
    var a := s.claim.authority;
    match s.phase
    case JustAcquired => if ans.cancelled then Settling(PM.Release) else Terminating
    case Terminating => FirstCheck(Joined(NONE, Validate(y, a, Terminate, ans.loadFails, ans.signalFails).1))
    case FirstCheck(e) => if ans.livenessFails || ans.dead then AfterAttempt(ans.dead, e) else Killing(e)
    case Killing(e) => SecondCheck(Joined(e, Validate(y, a, Kill, ans.loadFails, ans.signalFails).1))
    case SecondCheck(e) => AfterAttempt(ans.dead, e)
    case Rechecking =>
      if ans.loadFails || StillAuthorized(y, a) then Settling(PM.Release) else Settling(PM.Invalidate)
    case Confirming =>
      if ans.loadFails || !StillAuthorized(y, a) then Settling(PM.Invalidate)
      else Closing(y.tasks[a.taskId].subcommand == Impl)
    case Closing(impl) =>
      if s.timeout then (if impl && ans.lockFails then Settling(PM.Invalidate) else Resuming)
      else if ans.killFails then Settling(PM.Invalidate) else Settling(PM.RemoveClaim)
    case Resuming =>
      (match ans.resumption
       case Resumed => Settling(PM.RemoveClaim)
       case InFlight => Settling(if s.role == Reconciler then PM.Release else PM.Invalidate)
       case ResumeFailed => Settling(PM.Invalidate))
    case Settling(how) => Done(how)
    case Done(how) => Done(how)
  }

  function Moved(y: System, s: Sender, ans: Answer): Sender {
    var phase := Advanced(y, s, ans);
    s.(phase := phase, sawDead := s.sawDead || phase == Confirming)
  }

  /** Only the two signalling phases touch the system. */
  function Acted(y: System, s: Sender, ans: Answer): System {
    if s.phase.Terminating? then Validate(y, s.claim.authority, Terminate, ans.loadFails, ans.signalFails).0
    else if s.phase.Killing? then Validate(y, s.claim.authority, Kill, ans.loadFails, ans.signalFails).0
    else y
  }

  /** The first signal asks the process to end and the second kills it; each goes out exactly if the validator
      executes it, and no other phase sends one. */
  lemma ActedSends(y: System, s: Sender, ans: Answer)
    ensures var n := Acted(y, s, ans);
            var kind := if s.phase.Terminating? then Terminate else Kill;
            var sends := (s.phase.Terminating? || s.phase.Killing?)
                         && Validate(y, s.claim.authority, kind, ans.loadFails, ans.signalFails).1.Executed?;
            && n.tasks == y.tasks && n.leases == y.leases && LogGrows(y, n)
            && |n.log| == |y.log| + (if sends then 1 else 0)
            && (sends ==> n.log[|y.log|].kind == kind && n.log[|y.log|].authority == s.claim.authority)
  {
  }

  // ---- the whole system ----

  /** `outside` holds the tokens of claims granted to anybody else. */
  datatype World = World(pending: PM.World, system: System, senders: seq<Sender>, outside: set<nat>)

  datatype Event =
    | Environment(step: Signals.Step)
    | Other(op: PM.Op)
    | Reconcile(id: TaskId, authority: PM.Authority, timeout: bool)
    | Adopting(id: TaskId, loaded: Snapshot, timeout: bool)
    | Move(i: nat, answer: Answer)

  function AuthorityOf(s: Snapshot): Option<PM.Authority> {
    if s.pid.None? || s.processStartedAt.None? || s.state !in {StTimeout, StCancelling} then None
    else Some(PM.Authority(s.taskId, s.pid.value, s.processStartedAt.value, s.state, None))
  }

  /** An authority is drawn up exactly from a snapshot that may be signalled and whose process is on record, and
      then the snapshot matches it. */
  lemma AuthorityDrawnUp(s: Snapshot)
    ensures AuthorityOf(s).Some? <==> s.state in {StTimeout, StCancelling} && s.pid.Some? && s.processStartedAt.Some?
    ensures AuthorityOf(s).Some? ==> Matches(s, AuthorityOf(s).value) && AuthorityOf(s).value.generation.None?
    ensures AuthorityOf(s).Some? && Valid(s) ==> ValidAuthority(AuthorityOf(s).value)
  {
  }

  function Hired(y: System, role: Role, timeout: bool, claim: PM.Claim): Sender {
    var phase := if role == Reconciler then JustAcquired else Terminating;
    Sender(role, timeout, claim, phase, Drawn(y, claim.authority), false)
  }

  function Spawn(w: World, id: TaskId, a: PM.Authority, role: Role, timeout: bool): World {
    var op := PM.ClaimOp(id, a);
    var outcome := PM.OutcomeOf(w.pending.p, op);
    w.(pending := PM.Next(w.pending, op),
       senders := if outcome.Acquired? then w.senders + [Hired(w.system, role, timeout, outcome.claim)] else w.senders)
  }

  /** A sender is hired exactly when its claim is granted, and then begins by looking for a cancellation, if it
      reconciles, or at once by terminating; nothing else changes but the pending set. */
  lemma SpawnHires(w: World, id: TaskId, a: PM.Authority, role: Role, timeout: bool)
    requires PM.Wf(w.pending.p)
    ensures var n := Spawn(w, id, a, role, timeout);
            var granted := id in w.pending.p.entries && w.pending.p.entries[id].stage == PM.Unsent
                           && w.pending.p.entries[id].authority == a;
            && n.system == w.system && n.outside == w.outside
            && (|n.senders| == |w.senders| + 1 <==> granted) && (|n.senders| == |w.senders| <==> !granted)
            && n.senders[..|w.senders|] == w.senders
            && (granted ==>
                  var s := n.senders[|w.senders|];
                  && s.role == role && s.timeout == timeout && PM.Owns(n.pending.p, s.claim)
                  && s.claim.taskId == id && s.claim.authority == a && !s.sawDead
                  && s.phase == match role case Reconciler => JustAcquired case Adopter => Terminating)
  {
  }

  /** Others never present a token they were not given. */
  predicate Permitted(w: World, op: PM.Op) {
    op.SettleOp? ==> op.claim.token in w.outside
  }

  function ByOthers(w: World, op: PM.Op): World {
    var outcome := PM.OutcomeOf(w.pending.p, op);
    w.(pending := PM.Next(w.pending, op),
       outside := if outcome.Acquired? then w.outside + {outcome.claim.token} else w.outside)
  }

  /** The pending set after a sender's step. */
  function SettledBy(p: PM.World, s: Sender): PM.World {
    if s.phase.Settling? then PM.Next(p, PM.SettleOp(s.claim, s.phase.how)) else p
  }

  function Next(w: World, e: Event): World {
    match e
    case Environment(step) => w.(system := Signals.Next(w.system, step))
    case Other(op) => if Permitted(w, op) then ByOthers(w, op) else w
    case Reconcile(id, a, timeout) => if ValidAuthority(a) then Spawn(w, id, a, Reconciler, timeout) else w
    case Adopting(id, loaded, timeout) =>
      if AuthorityOf(loaded).Some? then Spawn(w, id, AuthorityOf(loaded).value, Adopter, timeout)
      else ByOthers(w, PM.RegisterOp(id, PM.DispConfirmOnly, None))
    case Move(i, ans) =>
      if i >= |w.senders| then w
      else
        var s := w.senders[i];
        w.(pending := SettledBy(w.pending, s),
           system := Acted(w.system, s, ans),
           senders := w.senders[i := Moved(w.system, s, ans)])
  }

  // ---- every claim is settled exactly once ----

  predicate Finished(s: Sender) {
    s.phase.Done?
  }

  predicate SenderOk(w: World, s: Sender) {
    && 1 <= s.claim.token <= |w.pending.granted| && w.pending.granted[s.claim.token - 1] == s.claim
    && (Finished(s) <==> s.claim.token in w.pending.settled)
    && s.claim.token !in w.outside
  }

  ghost predicate Accounted(w: World, token: nat) {
    token in w.outside || exists i :: 0 <= i < |w.senders| && w.senders[i].claim.token == token
  }

  ghost predicate NoLeak(w: World) {
    && PM.Exclusive(w.pending)
    && (forall i :: 0 <= i < |w.senders| ==> SenderOk(w, w.senders[i]))
    && (forall i, j :: 0 <= i < j < |w.senders| ==> w.senders[i].claim.token != w.senders[j].claim.token)
    && (forall token: nat :: token in w.outside ==> token <= |w.pending.granted|)
    && (forall token: nat :: 1 <= token <= |w.pending.granted| ==> Accounted(w, token))
  }

  /** A pending-set operation that settles no sender's claim leaves every sender's books in order. */
  lemma OthersKeepSenders(w: World, op: PM.Op, s: Sender)
    requires PM.Exclusive(w.pending) && SenderOk(w, s) && (op.SettleOp? ==> op.claim.token != s.claim.token)
    ensures SenderOk(ByOthers(w, op), s)
    ensures SenderOk(w.(pending := PM.Next(w.pending, op)), s)
  {
    PM.GrantStep(w.pending.p, op);
  }

  lemma AccountedStays(w: World, n: World, token: nat)
    requires Accounted(w, token) && w.outside <= n.outside && |w.senders| <= |n.senders|
    requires forall i :: 0 <= i < |w.senders| ==> n.senders[i].claim == w.senders[i].claim
    ensures Accounted(n, token)
  {
    if token !in w.outside {
      var i :| 0 <= i < |w.senders| && w.senders[i].claim.token == token;
      assert n.senders[i].claim.token == token;
    }
  }

  lemma ByOthersNoLeak(w: World, op: PM.Op)
    requires NoLeak(w) && Permitted(w, op)
    ensures NoLeak(ByOthers(w, op))
  {
    var n := ByOthers(w, op);
    PM.NextExclusive(w.pending, op);
    PM.GrantStep(w.pending.p, op);
    forall i | 0 <= i < |w.senders| ensures SenderOk(n, w.senders[i]) {
      OthersKeepSenders(w, op, w.senders[i]);
    }
    forall token: nat | 1 <= token <= |n.pending.granted| ensures Accounted(n, token) {
      if token <= |w.pending.granted| {
        AccountedStays(w, n, token);
      }
    }
  }

  lemma SpawnAccounts(w: World, id: TaskId, a: PM.Authority, role: Role, timeout: bool, token: nat)
    requires NoLeak(w) && 1 <= token <= |Spawn(w, id, a, role, timeout).pending.granted|
    ensures Accounted(Spawn(w, id, a, role, timeout), token)
  {
    var n := Spawn(w, id, a, role, timeout);
    PM.GrantStep(w.pending.p, PM.ClaimOp(id, a));
    if token <= |w.pending.granted| {
      AccountedStays(w, n, token);
    } else {
      assert n.senders[|w.senders|].claim.token == token;
    }
  }

  lemma HiredOk(w: World, id: TaskId, a: PM.Authority, role: Role, timeout: bool)
    requires NoLeak(w) && PM.OutcomeOf(w.pending.p, PM.ClaimOp(id, a)).Acquired?
    ensures var n := Spawn(w, id, a, role, timeout);
            SenderOk(n, n.senders[|w.senders|]) && n.senders[|w.senders|].claim.token == |w.pending.granted| + 1
  {
    PM.GrantStep(w.pending.p, PM.ClaimOp(id, a));
  }

  lemma SpawnNoLeak(w: World, id: TaskId, a: PM.Authority, role: Role, timeout: bool)
    requires NoLeak(w)
    ensures NoLeak(Spawn(w, id, a, role, timeout))
  {
    var op := PM.ClaimOp(id, a);
    var n := Spawn(w, id, a, role, timeout);
    PM.NextExclusive(w.pending, op);
    PM.GrantStep(w.pending.p, op);
    if PM.OutcomeOf(w.pending.p, op).Acquired? {
      HiredOk(w, id, a, role, timeout);
    }
    forall i | 0 <= i < |w.senders| ensures SenderOk(n, w.senders[i]) {
      OthersKeepSenders(w, op, w.senders[i]);
    }
    forall token: nat | 1 <= token <= |n.pending.granted| ensures Accounted(n, token) {
      SpawnAccounts(w, id, a, role, timeout, token);
    }
  }

  /** A sender's own settlement always succeeds. */
  lemma OwnSettlement(w: World, s: Sender)
    requires PM.Exclusive(w.pending) && SenderOk(w, s) && s.phase.Settling?
    ensures PM.Settles(w.pending.p, PM.SettleOp(s.claim, s.phase.how))
  {
    assert PM.Owns(w.pending.p, w.pending.granted[s.claim.token - 1]);
  }

  lemma OnlySettlingFinishes(y: System, s: Sender, ans: Answer)
    ensures Finished(Moved(y, s, ans)) <==> s.phase.Settling? || Finished(s)
    ensures Moved(y, s, ans).claim == s.claim
  {
  }

  lemma OwnMoveKeeps(w: World, s: Sender, s': Sender)
    requires PM.Exclusive(w.pending) && SenderOk(w, s) && s'.claim == s.claim
    requires Finished(s') <==> s.phase.Settling? || Finished(s)
    ensures SenderOk(w.(pending := SettledBy(w.pending, s)), s')
  {
    if s.phase.Settling? {
      PM.GrantStep(w.pending.p, PM.SettleOp(s.claim, s.phase.how));
      OwnSettlement(w, s);
    }
  }

  lemma OtherMoveKeeps(w: World, s: Sender, other: Sender)
    requires PM.Exclusive(w.pending) && SenderOk(w, other) && other.claim.token != s.claim.token
    ensures SenderOk(w.(pending := SettledBy(w.pending, s)), other)
  {
    if s.phase.Settling? {
      OthersKeepSenders(w, PM.SettleOp(s.claim, s.phase.how), other);
    }
  }

  lemma MoveKeepsSender(w: World, i: nat, ans: Answer, j: nat)
    requires NoLeak(w) && i < |w.senders| && j < |w.senders|
    ensures SenderOk(Next(w, Move(i, ans)), Next(w, Move(i, ans)).senders[j])
  {
    var s := w.senders[i];
    assert SenderOk(w, s) && SenderOk(w, w.senders[j]);
    if i == j {
      OnlySettlingFinishes(w.system, s, ans);
      OwnMoveKeeps(w, s, Moved(w.system, s, ans));
    } else {
      OtherMoveKeeps(w, s, w.senders[j]);
    }
  }

  lemma MoveKeepsPending(w: World, i: nat, ans: Answer)
    requires NoLeak(w) && i < |w.senders|
    ensures PM.Exclusive(Next(w, Move(i, ans)).pending) && Next(w, Move(i, ans)).pending.granted == w.pending.granted
  {
    var s := w.senders[i];
    if s.phase.Settling? {
      PM.NextExclusive(w.pending, PM.SettleOp(s.claim, s.phase.how));
    }
  }

  lemma MoveNoLeak(w: World, i: nat, ans: Answer)
    requires NoLeak(w) && i < |w.senders|
    ensures NoLeak(Next(w, Move(i, ans)))
  {
    var n := Next(w, Move(i, ans));
    MoveKeepsPending(w, i, ans);
    forall j | 0 <= j < |n.senders| ensures SenderOk(n, n.senders[j]) {
      MoveKeepsSender(w, i, ans, j);
    }
    forall token: nat | 1 <= token <= |n.pending.granted| ensures Accounted(n, token) {
      MoveAccounts(w, i, ans, token);
    }
  }

  lemma MoveAccounts(w: World, i: nat, ans: Answer, token: nat)
    requires i < |w.senders| && Accounted(w, token)
    ensures Accounted(Next(w, Move(i, ans)), token)
  {
    AccountedStays(w, Next(w, Move(i, ans)), token);
  }

  lemma NextNoLeak(w: World, e: Event)
    requires NoLeak(w)
    ensures NoLeak(Next(w, e))
  {
    match e
    case Environment(step) =>
      forall token: nat | 1 <= token <= |w.pending.granted| ensures Accounted(Next(w, e), token) {
        AccountedStays(w, Next(w, e), token);
      }
    case Other(op) => if Permitted(w, op) { ByOthersNoLeak(w, op); }
    case Reconcile(id, a, timeout) => SpawnNoLeak(w, id, a, Reconciler, timeout);
    case Adopting(id, loaded, timeout) =>
      if AuthorityOf(loaded).Some? {
        SpawnNoLeak(w, id, AuthorityOf(loaded).value, Adopter, timeout);
      } else {
        ByOthersNoLeak(w, PM.RegisterOp(id, PM.DispConfirmOnly, None));
      }
    case Move(i, ans) => if i < |w.senders| { MoveNoLeak(w, i, ans); }
  }

  // ---- a completed send was a send ----

  ghost predicate Signalled(y: System, a: PM.Authority) {
    exists k :: 0 <= k < |y.log| && y.log[k].authority == a
  }

  /** A sender that has heard of no error, or has recorded its send as complete, did signal. */
  ghost predicate Evidence(y: System, s: Sender) {
    match s.phase
    case FirstCheck(e) => e == NONE ==> Signalled(y, s.claim.authority)
    case Killing(e) => e == NONE ==> Signalled(y, s.claim.authority)
    case SecondCheck(e) => e == NONE ==> Signalled(y, s.claim.authority)
    case Settling(how) => how == PM.Complete ==> Signalled(y, s.claim.authority)
    case Done(how) => how == PM.Complete ==> Signalled(y, s.claim.authority)
    case _ => true
  }

  predicate LogGrows(y: System, n: System) {
    |y.log| <= |n.log| && n.log[..|y.log|] == y.log
  }

  lemma EvidenceLasts(y: System, n: System, s: Sender)
    requires Evidence(y, s) && LogGrows(y, n)
    ensures Evidence(n, s)
  {
    if Signalled(y, s.claim.authority) {
      var k :| 0 <= k < |y.log| && y.log[k].authority == s.claim.authority;
      assert n.log[k] == n.log[..|y.log|][k];
    }
  }

  lemma ActedGrows(y: System, s: Sender, ans: Answer)
    ensures LogGrows(y, Acted(y, s, ans))
  {
  }

  /** The first signal went out, or was not reported as sent. */
  lemma TerminateEvidence(y: System, s: Sender, ans: Answer)
    requires s.phase.Terminating?
    ensures Evidence(Acted(y, s, ans), Moved(y, s, ans))
  {
    var n := Acted(y, s, ans);
    if Advanced(y, s, ans).errors == NONE {
      assert n.log[|y.log|].authority == s.claim.authority;
    }
  }

  lemma MoveEvidence(y: System, s: Sender, ans: Answer)
    requires Evidence(y, s)
    ensures Evidence(Acted(y, s, ans), Moved(y, s, ans))
  {
    if s.phase.Terminating? {
      TerminateEvidence(y, s, ans);
    } else {
      ActedGrows(y, s, ans);
      EvidenceLasts(y, Acted(y, s, ans), s);
    }
  }

  ghost predicate AllEvidence(w: World) {
    forall i :: 0 <= i < |w.senders| ==> Evidence(w.system, w.senders[i])
  }

  lemma NextEvidence(w: World, e: Event)
    requires AllEvidence(w)
    ensures AllEvidence(Next(w, e))
  {
    var n := Next(w, e);
    if e.Move? && e.i < |w.senders| {
      MoveEvidence(w.system, w.senders[e.i], e.answer);
      ActedGrows(w.system, w.senders[e.i], e.answer);
    }
    forall i | 0 <= i < |w.senders| && n.senders[i] == w.senders[i] ensures Evidence(n.system, n.senders[i]) {
      EvidenceLasts(w.system, n.system, w.senders[i]);
    }
  }

  // ---- every settlement has its grounds ----

  /** A sending given up for good: the process was seen dead, or the authority, good when claimed, has
      lapsed, so that no signal could go out under it again. */
  predicate MayGiveUp(y: System, s: Sender) {
    s.sawDead || !s.drawn || Lapsed(y, s.claim.authority)
  }

  predicate GroundsOf(y: System, s: Sender, how: PM.Settlement) {
    match how
    case Complete => !s.sawDead
    case RemoveClaim => s.sawDead
    case Invalidate => MayGiveUp(y, s)
    case Release => true
  }

  predicate Grounds(y: System, s: Sender) {
    && (s.drawn ==> Drawn(y, s.claim.authority))
    && (match s.phase
        case FirstCheck(e) => !s.sawDead && (e.invalid ==> MayGiveUp(y, s))
        case Killing(e) => !s.sawDead && (e.invalid ==> MayGiveUp(y, s))
        case SecondCheck(e) => !s.sawDead && (e.invalid ==> MayGiveUp(y, s))
        case Confirming => s.sawDead
        case Closing(_) => s.sawDead
        case Resuming => s.sawDead
        case Settling(how) => GroundsOf(y, s, how)
        case Done(how) => GroundsOf(y, s, how)
        case _ => !s.sawDead)
  }

  lemma GroundsLast(y: System, e: Signals.Step, s: Sender)
    requires Grounds(y, s)
    ensures Grounds(Signals.Next(y, e), s)
  {
    if Drawn(y, s.claim.authority) {
      NextLapses(y, e, s.claim.authority);
    }
  }

  /** A refusal of an authority that was once good means that it has lapsed. */
  lemma RefusedLapsed(y: System, a: PM.Authority, kind: Kind, loadFails: bool, fails: bool)
    requires Drawn(y, a) && Validate(y, a, kind, loadFails, fails).1 == Refused
    ensures Lapsed(y, a)
  {
  }

  /** The phases before the attempt is over. */
  lemma SendingGrounds(y: System, s: Sender, ans: Answer)
    requires Grounds(y, s) && (s.phase.JustAcquired? || s.phase.Terminating? || s.phase.Killing?)
    ensures Grounds(y, Moved(y, s, ans))
  {
    var a := s.claim.authority;
    if s.drawn && s.phase.Terminating? && Validate(y, a, Terminate, ans.loadFails, ans.signalFails).1 == Refused {
      RefusedLapsed(y, a, Terminate, ans.loadFails, ans.signalFails);
    }
    if s.drawn && s.phase.Killing? && Validate(y, a, Kill, ans.loadFails, ans.signalFails).1 == Refused {
      RefusedLapsed(y, a, Kill, ans.loadFails, ans.signalFails);
    }
  }

  lemma DecidingGrounds(y: System, s: Sender, ans: Answer)
    requires Grounds(y, s) && !s.phase.JustAcquired? && !s.phase.Terminating? && !s.phase.Killing?
    ensures Grounds(y, Moved(y, s, ans))
  {
    if s.phase.Rechecking? && s.drawn && !StillAuthorized(y, s.claim.authority) {
      assert MovedOn(y.tasks[s.claim.authority.taskId], s.claim.authority);
    }
  }

  lemma MoveGrounds(y: System, s: Sender, ans: Answer)
    requires Grounds(y, s)
    ensures Grounds(Acted(y, s, ans), Moved(y, s, ans))
  {
    var a := s.claim.authority;
    if s.phase.JustAcquired? || s.phase.Terminating? || s.phase.Killing? {
      SendingGrounds(y, s, ans);
    } else {
      DecidingGrounds(y, s, ans);
    }
    if s.phase.Terminating? {
      GroundsLast(y, Signal(a, Terminate, ans.loadFails, ans.signalFails), Moved(y, s, ans));
    } else if s.phase.Killing? {
      GroundsLast(y, Signal(a, Kill, ans.loadFails, ans.signalFails), Moved(y, s, ans));
    }
  }

  ghost predicate AllGrounds(w: World) {
    forall i :: 0 <= i < |w.senders| ==> Grounds(w.system, w.senders[i])
  }

  lemma NextGrounds(w: World, e: Event)
    requires AllGrounds(w)
    ensures AllGrounds(Next(w, e))
  {
    var n := Next(w, e);
    match e
    case Environment(step) =>
      forall i | 0 <= i < |w.senders| ensures Grounds(n.system, n.senders[i]) {
        GroundsLast(w.system, step, w.senders[i]);
      }
    case Move(i, ans) =>
      if i < |w.senders| {
        MoveGrounds(w.system, w.senders[i], ans);
        forall j | 0 <= j < |w.senders| && j != i ensures Grounds(n.system, n.senders[j]) {
          OthersGrounds(w, i, ans, j);
        }
      }
    case _ =>
  }

  lemma OthersGrounds(w: World, i: nat, ans: Answer, j: nat)
    requires i < |w.senders| && j < |w.senders| && Grounds(w.system, w.senders[j])
    ensures Grounds(Acted(w.system, w.senders[i], ans), w.senders[j])
  {
    var a := w.senders[i].claim.authority;
    GroundsLast(w.system, Signal(a, Terminate, ans.loadFails, ans.signalFails), w.senders[j]);
    GroundsLast(w.system, Signal(a, Kill, ans.loadFails, ans.signalFails), w.senders[j]);
  }

  /** Senders signal through the validator only. */
  lemma NextSignals(w: World, e: Event)
    requires AllLegitimate(w.system)
    ensures AllLegitimate(Next(w, e).system)
  {
    match e
    case Environment(step) => NextLegitimate(w.system, step);
    case Move(i, ans) =>
      if i < |w.senders| {
        var a := w.senders[i].claim.authority;
        NextLegitimate(w.system, Signal(a, Terminate, ans.loadFails, ans.signalFails));
        NextLegitimate(w.system, Signal(a, Kill, ans.loadFails, ans.signalFails));
      }
    case _ =>
  }

  // ---- runs ----

  function Run(w: World, events: seq<Event>): World
    decreases |events|
  {
    if events == [] then w else Run(Next(w, events[0]), events[1..])
  }

  const START: World := World(PM.INITIAL, EMPTY, [], {})

  lemma {:induction false} RunNoLeak(w: World, events: seq<Event>)
    requires NoLeak(w) && AllEvidence(w) && AllLegitimate(w.system)
    ensures NoLeak(Run(w, events)) && AllEvidence(Run(w, events)) && AllLegitimate(Run(w, events).system)
    decreases |events|
  {
    if events != [] {
      NextNoLeak(w, events[0]);
      NextEvidence(w, events[0]);
      NextSignals(w, events[0]);
      RunNoLeak(Next(w, events[0]), events[1..]);
    }
  }

  function Settlements(settled: seq<nat>, token: nat): nat {
    if settled == [] then 0
    else Settlements(settled[..|settled| - 1], token) + if settled[|settled| - 1] == token then 1 else 0
  }

  lemma {:induction false} DistinctCount(settled: seq<nat>, token: nat)
    requires forall i, j :: 0 <= i < j < |settled| ==> settled[i] != settled[j]
    ensures Settlements(settled, token) == if token in settled then 1 else 0
  {
    if settled != [] {
      DistinctCount(settled[..|settled| - 1], token);
    }
  }

  lemma {:induction false} RunGrounds(w: World, events: seq<Event>)
    requires AllGrounds(w)
    ensures AllGrounds(Run(w, events))
    decreases |events|
  {
    if events != [] {
      NextGrounds(w, events[0]);
      RunGrounds(Next(w, events[0]), events[1..]);
    }
  }

  /** Over every run: a send is recorded as complete only while the process was not seen dead, an entry is
      removed only when it was, and one is closed to sending only when it was or when the authority it
      was claimed under has lapsed, after which no signal goes out under that authority anyway. */
  lemma EverySettlementGrounded(events: seq<Event>, after: seq<Signals.Step>)
    ensures var w := Run(START, events);
            forall i :: 0 <= i < |w.senders| && Finished(w.senders[i]) ==>
              var s := w.senders[i];
              && GroundsOf(w.system, s, s.phase.how)
              && (s.phase.how == PM.Invalidate && s.drawn && !s.sawDead ==>
                    Under(Signals.Run(w.system, after).log, s.claim.authority) ==
                        Under(w.system.log, s.claim.authority))
  {
    RunGrounds(START, events);
    var w := Run(START, events);
    forall i | 0 <= i < |w.senders| && w.senders[i].phase == Done(PM.Invalidate) && w.senders[i].drawn
        && !w.senders[i].sawDead
      ensures Under(Signals.Run(w.system, after).log, w.senders[i].claim.authority) ==
                Under(w.system.log, w.senders[i].claim.authority)
    {
      assert Grounds(w.system, w.senders[i]);
      NoSignalAfterLapse(w.system, w.senders[i].claim.authority, after);
    }
  }

  /** Over every run: a sender still at work owns its claim, a finished one has settled it exactly once,
      a send recorded as complete was sent, a claimed entry always has someone working on it, and every
      signal was legitimate when it was sent. */
  lemma EveryClaimSettledOnce(events: seq<Event>)
    ensures var w := Run(START, events);
            && AllLegitimate(w.system)
            && (forall i :: 0 <= i < |w.senders| ==>
                  var s := w.senders[i];
                  && Settlements(w.pending.settled, s.claim.token) == (if Finished(s) then 1 else 0)
                  && (PM.Owns(w.pending.p, s.claim) <==> !Finished(s))
                  && (s.phase == Done(PM.Complete) ==> Signalled(w.system, s.claim.authority)))
            && (forall id :: id in w.pending.p.entries && w.pending.p.entries[id].stage == PM.Claimed ==>
                  || w.pending.p.entries[id].token in w.outside
                  || exists i :: 0 <= i < |w.senders| && !Finished(w.senders[i])
                      && w.senders[i].claim.token == w.pending.p.entries[id].token)
  {
    RunNoLeak(START, events);
    var w := Run(START, events);
    forall i | 0 <= i < |w.senders|
      ensures Settlements(w.pending.settled, w.senders[i].claim.token) == if Finished(w.senders[i]) then 1 else 0
    {
      DistinctCount(w.pending.settled, w.senders[i].claim.token);
    }
    forall id | id in w.pending.p.entries && w.pending.p.entries[id].stage == PM.Claimed
        && w.pending.p.entries[id].token !in w.outside
      ensures exists i :: 0 <= i < |w.senders| && !Finished(w.senders[i])
                && w.senders[i].claim.token == w.pending.p.entries[id].token
    {
      ClaimedIsHeld(w, id);
    }
  }

  lemma ClaimedIsHeld(w: World, id: TaskId)
    requires NoLeak(w) && id in w.pending.p.entries && w.pending.p.entries[id].stage == PM.Claimed
    requires w.pending.p.entries[id].token !in w.outside
    ensures exists i :: 0 <= i < |w.senders| && !Finished(w.senders[i])
              && w.senders[i].claim.token == w.pending.p.entries[id].token
  {
    var token := w.pending.p.entries[id].token;
    assert Accounted(w, token);
    var i :| 0 <= i < |w.senders| && w.senders[i].claim.token == token;
    assert PM.Owns(w.pending.p, w.pending.granted[token - 1]);
    assert SenderOk(w, w.senders[i]);
  }

  // ---- no sender gets stuck ----

  function Remaining(p: Phase): nat {
    match p
    case JustAcquired => 9
    case Terminating => 8
    case FirstCheck(_) => 7
    case Killing(_) => 6
    case SecondCheck(_) => 5
    case Rechecking => 2
    case Confirming => 4
    case Closing(_) => 3
    case Resuming => 2
    case Settling(_) => 1
    case Done(_) => 0
  }

  /** One sender's steps, each in whatever system the others have left by then. */
  function Steps(s: Sender, found: seq<(System, Answer)>): Sender
    decreases |found|
  {
    if found == [] then s else Steps(s.(phase := Advanced(found[0].0, s, found[0].1)), found[1..])
  }

  /** Whatever it finds and is told, a sender finishes within nine of its own steps. */
  lemma {:induction false} SenderFinishes(s: Sender, found: seq<(System, Answer)>)
    requires |found| >= Remaining(s.phase)
    ensures Finished(Steps(s, found))
    decreases |found|
  {
    if found != [] {
      SenderFinishes(s.(phase := Advanced(found[0].0, s, found[0].1)), found[1..]);
    }
  }
}
