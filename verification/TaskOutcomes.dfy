/** Which operations a task accepts in which state, and all that each of them changes: the transition table read
    by operation, and how a task ends (internal/domain/task.go, exitcode.go). */
module TaskOutcomes {
  import opened Options
  import opened TaskDomain

  const AT_WORK: set<TaskState> := {StRunning, StStalled}
  const ALIVE: set<TaskState> := {StStarting, StRunning, StStalled, StAdopted}

  /** The states in which an operation is possible at all. */
  function StatesFor(op: Op): set<TaskState> {
    match op
    case Requeue(_) => {StQueued}
    case Start(_, _) => {StQueued}
    case RecordProcess(_, _) => {StStarting}
    case ConfirmRunning => {StStarting, StAdopted}
    case Observe(_) => AT_WORK
    case MarkStalled => AT_WORK
    case RecordExit(_, _, _) => ALIVE + {StOrphaned}
    case MarkTimedOut(_) => AT_WORK
    case BeginRecovery(_) => {StTimeout, StOrphaned}
    case CompleteRecovery(_) => {StRecovering}
    case FailRecovery => {StRecovering}
    case Adopt(_) => AT_WORK + {StStarting}
    case DetectOrphan(_) => ALIVE
    case RequestCancel => ALIVE + {StQueued, StOrphaned, StCancelling}
    case ConfirmKilled(_) => {StCancelling}
  }

  /** What else it demands. */
  predicate ArgumentsOk(t: Task, op: Op) {
    match op
    case RecordProcess(pid, startedAt) => t.process.None? && pid > 0 && startedAt != UNSET
    case RecordExit(_, _, estimated) => t.state == StOrphaned ==> estimated
    case DetectOrphan(known) => known
    case _ => true
  }

  lemma ApplyAccepts(t: Task, op: Op)
    ensures Apply(t, op).Ok? <==> t.state in StatesFor(op) && ArgumentsOk(t, op)
    ensures Apply(t, op) == Fail(AlreadyTerminal) <==> op == RequestCancel && Terminal(t.state)
  {
  }

  /** The state an operation leads to. */
  predicate LeadsTo(t: Task, op: Op, s: TaskState) {
    match op
    case Requeue(_) => s == StQueued
    case Start(_, _) => s == StStarting
    case RecordProcess(_, _) => s == t.state
    case ConfirmRunning => s == StRunning
    case Observe(_) => s == StRunning
    case MarkStalled => s == StStalled
    case RecordExit(code, lastMessage, _) => s in {StCompleted, StFailed}
        && (s == StCompleted <==> code.raw == 0 && lastMessage)
    case MarkTimedOut(_) => s == StTimeout
    case BeginRecovery(_) => s == StRecovering
    case CompleteRecovery(_) => s == StRecovered
    case FailRecovery => s in {StTimeoutLost, StLost} && (s == StTimeoutLost <==> t.origin == Some(OriginTimeout))
    case Adopt(lockAcquired) => s in {StOrphaned, StRunning} && (s == StOrphaned <==> lockAcquired)
    case DetectOrphan(_) => s == StOrphaned
    case RequestCancel => s == StCancelling
    case ConfirmKilled(_) => s == StKilled
  }

  /** An exit is a success only with exit code zero and a last message; everything else is a failure. */
  lemma ApplyLeadsTo(t: Task, op: Op)
    requires Apply(t, op).Ok?
    ensures LeadsTo(t, op, Apply(t, op).task.state)
  {
  }

  /** Apart from the state, an operation records what it was given and changes nothing else. */
  lemma ApplyRecords(t: Task, op: Op)
    requires Apply(t, op).Ok?
    ensures var t' := Apply(t, op).task.(state := t.state);
            match op
            case Requeue(position) => t'.queuePosition == position && t'.(queuePosition := t.queuePosition) == t
            case Start(timeout, model) =>
              t'.timeout == timeout && t'.model == model && t'.(timeout := t.timeout, model := t.model) == t
            case RecordProcess(pid, startedAt) =>
              t'.process == Some(Process(pid, startedAt)) && t'.(process := t.process) == t
            case Observe(at) => t'.lastEventAt == at && t'.(lastEventAt := t.lastEventAt) == t
            case RecordExit(code, _, _) => t'.exitCode == Some(code) && t'.(exitCode := t.exitCode) == t
            case CompleteRecovery(code) => t'.exitCode == Some(code) && t'.(exitCode := t.exitCode) == t
            case ConfirmKilled(code) => t'.exitCode == Some(code) && t'.(exitCode := t.exitCode) == t
            case MarkTimedOut(session) => t'.sessionRef == session && t'.(sessionRef := t.sessionRef) == t
            case BeginRecovery(session) =>
              t'.sessionRef == session
                  && t'.origin == Some(if t.state == StTimeout then OriginTimeout else OriginOrphan)
              && t'.(sessionRef := t.sessionRef, origin := t.origin) == t
            case Adopt(_) => t'.adopted && t'.(adopted := t.adopted) == t
            case _ => t' == t
  {
  }
}
