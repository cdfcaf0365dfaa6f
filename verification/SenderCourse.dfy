/** A sender's whole course as straight-line code, the way the source has it, against the steps it takes
    among others (internal/recovery/reconcile.go, internal/recovery/adopt.go). */
module SenderCourse {
  import opened TaskDomain
  import PM = PendingModel
  import opened Signals
  import opened Senders

  /** What a sender finds at each of its questions, whether or not it gets to ask it. */
  datatype Course = Course(claiming: Answer, terminate: (System, Answer), firstCheck: Answer, kill: (System, Answer),
                           secondCheck: Answer, load: (System, Answer), closing: Answer, resuming: Answer)

  datatype Attempt = Attempt(dead: bool, errors: Errors)

  /** SendAndConfirm: terminate, look, and if need be kill and look again. */
  function SendAndConfirm(a: PM.Authority, c: Course): Attempt {
    var first := Joined(NONE,
          Validate(c.terminate.0, a, Terminate, c.terminate.1.loadFails, c.terminate.1.signalFails).1);
    if c.firstCheck.livenessFails || c.firstCheck.dead then Attempt(c.firstCheck.dead, first)
    else Attempt(c.secondCheck.dead,
          Joined(first, Validate(c.kill.0, a, Kill, c.kill.1.loadFails, c.kill.1.signalFails).1))
  }

  function Unconfirmed(a: PM.Authority, r: Attempt, c: Course): PM.Settlement {
    if r.errors.invalid then PM.Invalidate
    else if !r.errors.other then PM.Complete
    else if !c.load.1.loadFails && !StillAuthorized(c.load.0, a) then PM.Invalidate
    else PM.Release
  }

  function Terminated(role: Role, timeout: bool, impl: bool, c: Course): PM.Settlement {
    if !timeout then (if c.closing.killFails then PM.Invalidate else PM.RemoveClaim)
    else if impl && c.closing.lockFails then PM.Invalidate
    else
      match c.resuming.resumption
      case Resumed => PM.RemoveClaim
      case InFlight => if role == Reconciler then PM.Release else PM.Invalidate
      case ResumeFailed => PM.Invalidate
  }

  function Afterwards(role: Role, timeout: bool, a: PM.Authority, r: Attempt, c: Course): PM.Settlement {
    if !r.dead then Unconfirmed(a, r, c)
    else if c.load.1.loadFails || !StillAuthorized(c.load.0, a) then PM.Invalidate
    else Terminated(role, timeout, c.load.0.tasks[a.taskId].subcommand == Impl, c)
  }

  /** How a claim is settled, read off the code from top to bottom. */
  function Decision(role: Role, timeout: bool, a: PM.Authority, c: Course): PM.Settlement {
    if role == Reconciler && c.claiming.cancelled then PM.Release
    else Afterwards(role, timeout, a, SendAndConfirm(a, c), c)
  }

  function Found(c: Course, p: Phase): (System, Answer) {
    match p
    case Terminating => c.terminate
    case FirstCheck(_) => (c.terminate.0, c.firstCheck)
    case Killing(_) => c.kill
    case SecondCheck(_) => (c.kill.0, c.secondCheck)
    case Rechecking => c.load
    case Confirming => c.load
    case Closing(_) => (c.load.0, c.closing)
    case Resuming => (c.load.0, c.resuming)
    case _ => (c.terminate.0, c.claiming)
  }

  function Stepped(s: Sender, c: Course): Sender {
    s.(phase := Advanced(Found(c, s.phase).0, s, Found(c, s.phase).1))
  }

  function Drive(s: Sender, c: Course, n: nat): Sender
    decreases n
  {
    if n == 0 then s else Drive(Stepped(s, c), c, n - 1)
  }

  lemma {:induction false} DrivenOut(s: Sender, c: Course, n: nat)
    requires s.phase.Done?
    ensures Drive(s, c, n) == s
    decreases n
  {
    if n > 0 {
      DrivenOut(s, c, n - 1);
    }
  }

  lemma DriveThree(s: Sender, c: Course, n: nat)
    requires n >= 3
    ensures Drive(s, c, n) == Drive(Stepped(Stepped(Stepped(s, c), c), c), c, n - 3)
  {
    assert Drive(s, c, n) == Drive(Stepped(s, c), c, n - 1);
    assert Drive(Stepped(s, c), c, n - 1) == Drive(Stepped(Stepped(s, c), c), c, n - 2);
  }

  /** The process is still there, or nobody could tell. */
  lemma DriveUnconfirmed(s: Sender, c: Course, r: Attempt, n: nat)
    requires s.phase == AfterAttempt(false, r.errors) && n >= 2
    ensures Drive(s, c, n).phase == Done(Unconfirmed(s.claim.authority, r, c))
  {
    DriveTwo(s, c, n);
    DrivenOut(Stepped(Stepped(s, c), c), c, n - 2);
  }

  /** The end of the course of a process seen dead, its authority still good. */
  lemma DriveClosing(s: Sender, c: Course, impl: bool, n: nat)
    requires s.phase == Closing(impl) && n >= 3
    ensures Drive(s, c, n).phase == Done(Terminated(s.role, s.timeout, impl, c))
  {
    DriveThree(s, c, n);
    DrivenOut(Stepped(Stepped(Stepped(s, c), c), c), c, n - 3);
  }

  lemma DriveConfirming(s: Sender, c: Course, n: nat)
    requires s.phase == Confirming && n >= 4
    ensures Drive(s, c, n).phase == Done(Afterwards(s.role, s.timeout, s.claim.authority, Attempt(true, NONE), c))
  {
    var next := Stepped(s, c);
    assert Drive(s, c, n) == Drive(next, c, n - 1);
    if next.phase.Closing? {
      DriveClosing(next, c, next.phase.impl, n - 1);
    } else {
      assert Drive(next, c, n - 1) == Drive(Stepped(next, c), c, n - 2);
      DrivenOut(Stepped(next, c), c, n - 2);
    }
  }

  lemma DriveAfterwards(s: Sender, c: Course, r: Attempt, n: nat)
    requires s.phase == AfterAttempt(r.dead, r.errors) && n >= 4
    ensures Drive(s, c, n).phase == Done(Afterwards(s.role, s.timeout, s.claim.authority, r, c))
  {
    if r.dead {
      DriveConfirming(s, c, n);
    } else {
      DriveUnconfirmed(s, c, r, n);
    }
  }

  lemma DriveTwo(s: Sender, c: Course, n: nat)
    requires n >= 2
    ensures Drive(s, c, n) == Drive(Stepped(Stepped(s, c), c), c, n - 2)
  {
    assert Drive(s, c, n) == Drive(Stepped(s, c), c, n - 1);
  }

  /** Terminating and the first look. */
  lemma FirstHalf(s: Sender, c: Course)
    requires s.phase == Terminating
    ensures var r := SendAndConfirm(s.claim.authority, c);
            var next := Stepped(Stepped(s, c), c);
            var first := Joined(NONE,
                  Validate(c.terminate.0, s.claim.authority, Terminate, c.terminate.1.loadFails,
                        c.terminate.1.signalFails).1);
            var over := c.firstCheck.livenessFails || c.firstCheck.dead;
            next == s.(phase := if over then AfterAttempt(r.dead, r.errors) else Killing(first))
  {
  }

  /** Killing and the second look. */
  lemma SecondHalf(s: Sender, c: Course)
    requires s.phase.Killing?
    ensures var errors := Joined(s.phase.errors,
                Validate(c.kill.0, s.claim.authority, Kill, c.kill.1.loadFails, c.kill.1.signalFails).1);
            Stepped(Stepped(s, c), c) == s.(phase := AfterAttempt(c.secondCheck.dead, errors))
  {
  }

  lemma DriveAttempt(s: Sender, c: Course, n: nat)
    requires s.phase == Terminating && n >= 8
    ensures Drive(s, c, n).phase ==
              Done(Afterwards(s.role, s.timeout, s.claim.authority, SendAndConfirm(s.claim.authority, c), c))
  {
    var r := SendAndConfirm(s.claim.authority, c);
    var half := Stepped(Stepped(s, c), c);
    DriveTwo(s, c, n);
    FirstHalf(s, c);
    if c.firstCheck.livenessFails || c.firstCheck.dead {
      DriveAfterwards(half, c, r, n - 2);
    } else {
      DriveTwo(half, c, n - 2);
      SecondHalf(half, c);
      DriveAfterwards(Stepped(Stepped(half, c), c), c, r, n - 4);
    }
  }

  /** The interleaved sender settles its claim the way the straight-line code does. */
  lemma SenderDecides(s: Sender, c: Course)
    requires s.phase == if s.role == Reconciler then JustAcquired else Terminating
    ensures Drive(s, c, 9).phase == Done(Decision(s.role, s.timeout, s.claim.authority, c))
  {
    if s.role == Adopter {
      DriveAttempt(s, c, 9);
    } else {
      var s1 := Stepped(s, c);
      if c.claiming.cancelled {
        assert Drive(s1, c, 8) == Drive(Stepped(s1, c), c, 7);
        DrivenOut(Stepped(s1, c), c, 7);
      } else {
        DriveAttempt(s1, c, 8);
      }
    }
  }

  // ---- what the settlements mean ----

  /** A signal that went out and was not reported as failed. */
  predicate Sent(found: (System, Answer), a: PM.Authority, kind: Kind) {
    Validate(found.0, a, kind, found.1.loadFails, found.1.signalFails).1 == Executed(false)
  }

  predicate Turned(found: (System, Answer), a: PM.Authority, kind: Kind) {
    Validate(found.0, a, kind, found.1.loadFails, found.1.signalFails).1 == Refused
  }

  /** The first look ends the attempt. */
  predicate OneSignal(c: Course) {
    c.firstCheck.livenessFails || c.firstCheck.dead
  }

  predicate SeenDead(c: Course) {
    if OneSignal(c) then c.firstCheck.dead else c.secondCheck.dead
  }

  /** Every signal of the attempt was sent. */
  predicate AllSent(a: PM.Authority, c: Course) {
    Sent(c.terminate, a, Terminate) && (OneSignal(c) || Sent(c.kill, a, Kill))
  }

  /** Some signal of the attempt was turned down. */
  predicate SomeTurned(a: PM.Authority, c: Course) {
    Turned(c.terminate, a, Terminate) || (!OneSignal(c) && Turned(c.kill, a, Kill))
  }

  /** A process seen dead was the right one still, and what follows its end succeeded. */
  predicate ClosedDown(role: Role, timeout: bool, a: PM.Authority, c: Course) {
    && !c.load.1.loadFails && StillAuthorized(c.load.0, a)
    && (if timeout
        then !(c.load.0.tasks[a.taskId].subcommand == Impl && c.closing.lockFails) && c.resuming.resumption == Resumed
        else !c.closing.killFails)
  }

  /** The recovery of a process seen dead is already under way elsewhere. */
  predicate UnderWay(timeout: bool, a: PM.Authority, c: Course) {
    && !c.load.1.loadFails && StillAuthorized(c.load.0, a) && timeout
    && !(c.load.0.tasks[a.taskId].subcommand == Impl && c.closing.lockFails) && c.resuming.resumption == InFlight
  }

  /** Exactly when a claim is settled which way: completed if everything was sent and the process is still there;
      removed if it was seen dead and closed down; released if it may be tried again; and otherwise, whenever the
      authority is no longer good or closing down failed, invalidated. */
  lemma DecisionOutcome(role: Role, timeout: bool, a: PM.Authority, c: Course)
    ensures var cancelled := role == Reconciler && c.claiming.cancelled;
            var how := Decision(role, timeout, a, c);
            && (how == PM.Complete <==> !cancelled && !SeenDead(c) && AllSent(a, c))
            && (how == PM.RemoveClaim <==> !cancelled && SeenDead(c) && ClosedDown(role, timeout, a, c))
            && (how == PM.Release <==>
                  || cancelled
                  || (!SeenDead(c) && !SomeTurned(a, c) && !AllSent(a, c)
                        && (c.load.1.loadFails || StillAuthorized(c.load.0, a)))
                  || (SeenDead(c) && role == Reconciler && UnderWay(timeout, a, c)))
            && (how == PM.Invalidate <==>
                  && !cancelled
                  && (if SeenDead(c) then !ClosedDown(role, timeout, a, c)
                                          && !(role == Reconciler && UnderWay(timeout, a, c))
                      else SomeTurned(a, c)
                           || (!AllSent(a, c) && !c.load.1.loadFails && !StillAuthorized(c.load.0, a))))
  {
  }
}
