/** The task aggregate: states, the transition table and every operation on a task
    (internal/domain/task.go, state.go, enums.go, exitcode.go, timeout.go, processstarttime.go). */
module TaskDomain {
  import opened Options

  /** Instants as integers; zero is the unset instant. */
  type Time = int

  const UNSET: Time := 0

  type TaskId = string
  type Slug = string

  /** A session reference is carried around and never looked into. */
  type SessionRef = nat

  datatype TaskState =
    | StQueued | StStarting | StRunning | StStalled | StCompleted | StFailed | StTimeout | StRecovering
    | StRecovered | StTimeoutLost | StCancelling | StKilled | StAdopted | StOrphaned | StLost

  predicate Terminal(s: TaskState) {
    s in {StCompleted, StFailed, StRecovered, StTimeoutLost, StKilled, StLost}
  }

  datatype Subcommand = Impl | Review | Plan | Research | Read | Think | OtherCommand

  predicate Submittable(c: Subcommand) {
    c != OtherCommand
  }

  datatype Origin = OriginTimeout | OriginOrphan

  datatype ExitClass = ClassSuccess | ClassFailure | ClassTimeout | ClassCancelled

  datatype ExitCode = ExitCode(raw: int)

  function Class(e: ExitCode): ExitClass {
    if e.raw == 0 then ClassSuccess
    else if e.raw == 6 || e.raw == 124 || e.raw == 137 then ClassTimeout
    else if e.raw == 130 then ClassCancelled
    else ClassFailure
  }

  const TIMEOUT_MIN: int := 1800

  datatype Timeout = Timeout(requested: Option<int>, resolved: int)

  predicate TimeoutOk(t: Timeout) {
    t.resolved >= TIMEOUT_MIN && (t.requested.Some? ==> t.requested.value >= TIMEOUT_MIN)
  }

  datatype Process = Process(pid: int, startedAt: Time)

  predicate ProcessOk(p: Process) {
    p.pid > 0 && p.startedAt != UNSET
  }

  datatype Task = Task(id: TaskId, subcommand: Subcommand, slug: Slug, requestedTimeout: Option<int>, requestedAt: Time,
                       state: TaskState, queuePosition: int, timeout: Timeout, model: string, process: Option<Process>,
                       lastEventAt: Time, sessionRef: Option<SessionRef>, origin: Option<Origin>,
                       adopted: bool, exitCode: Option<ExitCode>)

  datatype Event =
    | Queued | Started | EventObserved | Stalled | Exited | TimedOut | RecoveryAttempted | RecoverySucceeded
    | RecoveryFailed | Adopted | OrphanDetected | CancelRequested | Killed

  predicate Allowed(s: TaskState, e: Event) {
    match s
    case StQueued => e in {Queued, Started, CancelRequested}
    case StStarting => e in {Exited, Adopted, OrphanDetected, CancelRequested}
    case StRunning => e in {EventObserved, Stalled, Exited, TimedOut, Adopted, OrphanDetected, CancelRequested}
    case StStalled => e in {EventObserved, Stalled, Exited, TimedOut, Adopted, OrphanDetected, CancelRequested}
    case StTimeout => e == RecoveryAttempted
    case StRecovering => e in {RecoverySucceeded, RecoveryFailed}
    case StCancelling => e in {CancelRequested, Killed}
    case StAdopted => e in {Exited, OrphanDetected, CancelRequested}
    case StOrphaned => e in {Exited, RecoveryAttempted, CancelRequested}
    case _ => false
  }

  /** Everything that can be asked of a task. */
  datatype Op =
    | Requeue(position: int)
    | Start(timeout: Timeout, model: string)
    | RecordProcess(pid: int, startedAt: Time)
    | ConfirmRunning
    | Observe(at: Time)
    | MarkStalled
    | RecordExit(code: ExitCode, lastMessage: bool, estimated: bool)
    | MarkTimedOut(session: Option<SessionRef>)
    | BeginRecovery(session: Option<SessionRef>)
    | CompleteRecovery(code: ExitCode)
    | FailRecovery
    | Adopt(lockAcquired: bool)
    | DetectOrphan(known: bool)
    | RequestCancel
    | ConfirmKilled(code: ExitCode)

  datatype Error = InvalidTransition | AlreadyTerminal | BadArgument

  datatype Result = Ok(task: Task) | Fail(error: Error)

  function Moved(t: Task, e: Event, destination: TaskState): Result {
    if Terminal(t.state) && e == CancelRequested then Fail(AlreadyTerminal)
    else if !Allowed(t.state, e) then Fail(InvalidTransition)
    else Ok(t.(state := destination))
  }

  function ExitState(code: ExitCode, lastMessage: bool): TaskState {
    if Class(code) == ClassSuccess && lastMessage then StCompleted else StFailed
  }

  /** The task after one operation, or why it was refused. A refused task is unchanged. */
  function Apply(t: Task, op: Op): Result {
    match op
    case Requeue(position) =>
      var r := Moved(t, Queued, StQueued);
      if r.Ok? then Ok(r.task.(queuePosition := position)) else r
    case Start(timeout, model) =>
      var r := Moved(t, Started, StStarting);
      if r.Ok? then Ok(r.task.(timeout := timeout, model := model)) else r
    case RecordProcess(pid, startedAt) =>
      if t.state != StStarting || t.process.Some? then Fail(InvalidTransition)
      else if !ProcessOk(Process(pid, startedAt)) then Fail(BadArgument)
      else Ok(t.(process := Some(Process(pid, startedAt))))
    case ConfirmRunning =>
      if t.state == StStarting || t.state == StAdopted then Ok(t.(state := StRunning)) else Fail(InvalidTransition)
    case Observe(at) =>
      var r := Moved(t, EventObserved, StRunning);
      if r.Ok? then Ok(r.task.(lastEventAt := at)) else r
    case MarkStalled => Moved(t, Stalled, StStalled)
    case RecordExit(code, lastMessage, estimated) =>
      if t.state == StOrphaned && !estimated then Fail(BadArgument)
      else
        var r := Moved(t, Exited, ExitState(code, lastMessage));
        if r.Ok? then Ok(r.task.(exitCode := Some(code))) else r
    case MarkTimedOut(session) =>
      var r := Moved(t, TimedOut, StTimeout);
      if r.Ok? then Ok(r.task.(sessionRef := session)) else r
    case BeginRecovery(session) =>
      var from := if t.state == StOrphaned then OriginOrphan else OriginTimeout;
      var r := Moved(t, RecoveryAttempted, StRecovering);
      if r.Ok? then Ok(r.task.(origin := Some(from), sessionRef := session)) else r
    case CompleteRecovery(code) =>
      var r := Moved(t, RecoverySucceeded, StRecovered);
      if r.Ok? then Ok(r.task.(exitCode := Some(code))) else r
    case FailRecovery => Moved(t, RecoveryFailed, if t.origin == Some(OriginTimeout) then StTimeoutLost else StLost)
    case Adopt(lockAcquired) =>
      var r := Moved(t, Adopted, StAdopted);
      if r.Fail? then r else Ok(r.task.(adopted := true, state := if lockAcquired then StOrphaned else StRunning))
    case DetectOrphan(known) => if !known then Fail(BadArgument) else Moved(t, OrphanDetected, StOrphaned)
    case RequestCancel => Moved(t, CancelRequested, StCancelling)
    case ConfirmKilled(code) =>
      var r := Moved(t, Killed, StKilled);
      if r.Ok? then Ok(r.task.(exitCode := Some(code))) else r
  }

  function NewTask(id: TaskId, subcommand: Subcommand, slug: Slug, requested: Option<int>, at: Time,
                   position: int): Option<Task> {
    if !Submittable(subcommand) then None
    else Some(Task(id, subcommand, slug, requested, at, StQueued, position, Timeout(None, 0), "", None, UNSET,
            None, None, false, None))
  }

  // ---- lineage ----

  predicate RecoveryLineage(s: TaskState) {
    s in {StRecovering, StRecovered, StTimeoutLost, StLost}
  }

  /** The recovery origin is recorded exactly in the recovery lineage, the two ways of losing a task
      tell the origins apart, and an exit code means the task is over. */
  predicate Sound(t: Task) {
    OriginSound(t) && ExitSound(t)
  }

  predicate OriginSound(t: Task) {
    && (t.origin.Some? <==> RecoveryLineage(t.state))
    && (t.state == StTimeoutLost ==> t.origin == Some(OriginTimeout))
    && (t.state == StLost ==> t.origin == Some(OriginOrphan))
  }

  predicate ExitSound(t: Task) {
    && (t.exitCode.Some? ==> Terminal(t.state))
    && (t.state in {StCompleted, StFailed, StRecovered, StKilled} ==> t.exitCode.Some?)
  }

  /** How far along its life a task is. */
  function Rank(s: TaskState): nat {
    match s
    case StQueued => 0
    case StStarting => 1
    case StRunning => 1
    case StStalled => 1
    case StAdopted => 1
    case StTimeout => 2
    case StOrphaned => 2
    case StRecovering => 3
    case StCancelling => 3
    case _ => 4
  }

  /** No operation leads back: progress never decreases, a terminal task refuses everything, and a task
      that leaves the states in which it may be signalled has made progress for good. */
  lemma ApplyProgress(t: Task, op: Op)
    requires Apply(t, op).Ok?
    ensures !Terminal(t.state)
    ensures Rank(t.state) <= Rank(Apply(t, op).task.state)
    ensures t.state in {StTimeout, StCancelling} && Apply(t, op).task.state != t.state ==>
              Rank(t.state) < Rank(Apply(t, op).task.state)
  {
  }

  lemma ApplyOriginSound(t: Task, op: Op)
    requires OriginSound(t) && Apply(t, op).Ok?
    ensures OriginSound(Apply(t, op).task)
  {
    assert t.origin.Some? ==> t.origin.value == OriginTimeout || t.origin.value == OriginOrphan;
  }

  lemma ApplyExitSound(t: Task, op: Op)
    requires ExitSound(t) && Apply(t, op).Ok?
    ensures ExitSound(Apply(t, op).task)
  {
  }

  lemma ApplySound(t: Task, op: Op)
    requires Sound(t) && Apply(t, op).Ok?
    ensures Sound(Apply(t, op).task)
  {
    ApplyOriginSound(t, op);
    ApplyExitSound(t, op);
  }

  /** What no operation ever changes. */
  lemma ApplyKeepsIdentity(t: Task, op: Op)
    requires Apply(t, op).Ok?
    ensures var t' := Apply(t, op).task;
            t'.id == t.id && t'.subcommand == t.subcommand && t'.slug == t.slug
                && t'.requestedTimeout == t.requestedTimeout
            && t'.requestedAt == t.requestedAt && (t.process.Some? ==> t'.process == t.process)
                && (t.adopted ==> t'.adopted)
  {
  }

  // ---- whole lives ----

  /** Runs operations in turn, skipping the refused ones. */
  function Live(t: Task, ops: seq<Op>): Task
    decreases |ops|
  {
    if ops == [] then t
    else
      var r := Apply(t, ops[0]);
      Live(if r.Ok? then r.task else t, ops[1..])
  }

  /** Over any life: soundness and identity last, progress never decreases. */
  lemma {:induction false} LiveSound(t: Task, ops: seq<Op>)
    requires Sound(t)
    ensures Sound(Live(t, ops)) && Rank(t.state) <= Rank(Live(t, ops).state)
    ensures Live(t, ops).id == t.id && (t.process.Some? ==> Live(t, ops).process == t.process)
    decreases |ops|
  {
    if ops != [] {
      var r := Apply(t, ops[0]);
      if r.Ok? {
        ApplySound(t, ops[0]);
        ApplyProgress(t, ops[0]);
        ApplyKeepsIdentity(t, ops[0]);
      }
      LiveSound(if r.Ok? then r.task else t, ops[1..]);
    }
  }

  /** A terminal task is terminal for ever, in every field. */
  lemma {:induction false} TerminalForever(t: Task, ops: seq<Op>)
    requires Terminal(t.state)
    ensures Live(t, ops) == t
    decreases |ops|
  {
    if ops != [] {
      if Apply(t, ops[0]).Ok? {
        ApplyProgress(t, ops[0]);
      }
      TerminalForever(t, ops[1..]);
    }
  }

  /** Once a task has left a state in which it may be signalled, it never is in that state again. */
  lemma {:induction false} NeverBack(t: Task, s: TaskState, ops: seq<Op>)
    requires s in {StTimeout, StCancelling} && Rank(t.state) >= Rank(s) && t.state != s
    requires s == StTimeout ==> t.state != StOrphaned
    requires s == StCancelling ==> Rank(t.state) > Rank(s)
    ensures Live(t, ops).state != s
    decreases |ops|
  {
    if ops != [] {
      var r := Apply(t, ops[0]);
      if r.Ok? {
        ApplyProgress(t, ops[0]);
        NeverBack(r.task, s, ops[1..]);
      } else {
        NeverBack(t, s, ops[1..]);
      }
    }
  }

  /** A life that starts in s, leaves it and goes on does not come back to s. */
  lemma {:induction false} LeftForGood(t: Task, s: TaskState, before: seq<Op>, op: Op, after: seq<Op>)
    requires s in {StTimeout, StCancelling} && Live(t, before).state == s
    requires Apply(Live(t, before), op).Ok? && Apply(Live(t, before), op).task.state != s
    ensures Live(Apply(Live(t, before), op).task, after).state != s
  {
    var u := Live(t, before);
    ApplyProgress(u, op);
    NeverBack(Apply(u, op).task, s, after);
  }
}
