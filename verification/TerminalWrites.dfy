/** The order of terminal writes: exit-code file first, snapshot second, under every pattern of
    failures (internal/execution/finalize.go, internal/execution/cancel.go,
    internal/execution/usecase/launchfailure.go, internal/contract/exitcode.go). */
module TerminalWrites {
  import opened Options
  import opened TaskDomain
  import opened TaskSnapshots

  /** What is on disk for one task. */
  datatype Disk = Disk(exit: Option<int>, stored: Option<Snapshot>)

  /** A write may fail without a trace, or take effect and still be reported as failed. */
  datatype Fault = Works | FailsClean | FailsLate

  /** The fate of one attempt: reading the exit code, writing it, saving the snapshot. */
  datatype Faults = Faults(readFails: bool, write: Fault, save: Fault)

  // ---- the exit-code file ----

  datatype ExitOutcome = Recorded | Conflict | Unreadable | WriteFailed

  function WriteExit(d: Disk, code: ExitCode, f: Faults): (r: (Disk, ExitOutcome)) {
    if f.readFails then (d, Unreadable)
    else if d.exit.Some? then (d, if d.exit.value != code.raw then Conflict else Recorded)
    else if f.write == Works then (d.(exit := Some(code.raw)), Recorded)
    else (if f.write == FailsLate then d.(exit := Some(code.raw)) else d, WriteFailed)
  }

  function SaveSnapshot(d: Disk, s: Snapshot, fault: Fault): (r: (Disk, bool)) {
    (if fault == FailsClean then d else d.(stored := Some(s)), fault == Works)
  }

  // ---- the three use cases ----

  datatype Outcome = Rejected | Fatal | Retryable | Persisted

  /** Exit code, then the snapshot of the terminal task; `amended` is that snapshot once more, with
      whatever the caller adds to it. */
  function WriteTerminal(d: Disk, code: ExitCode, amended: Option<Snapshot>, f: Faults): (r: (Disk, Outcome)) {
    var (after, outcome) := WriteExit(d, code, f);
    if outcome == Conflict || outcome == Unreadable then (after, Fatal)
    else if outcome == WriteFailed then (after, Retryable)
    else if amended.None? then (after, Fatal)
    else
      var (saved, ok) := SaveSnapshot(after, amended.value, f.save);
      (saved, if ok then Persisted else Retryable)
  }

  /** The stored task, unless it cannot be loaded. */
  function Loaded(d: Disk, fails: bool): Option<Task> {
    if fails || d.stored.None? then None else Restore(d.stored.value)
  }

  function Attempt(d: Disk, loadFails: bool, op: Op, code: ExitCode, at: Time, f: Faults): (r: (Disk, Outcome)) {
    var t := Loaded(d, loadFails);
    if t.None? || Apply(t.value, op).Fail? then (d, Rejected)
    else WriteTerminal(d, code, WithTask(d.stored.value, Apply(t.value, op).task, at), f)
  }

  /** Recording an exit; a failed write is tried once more, from a fresh load and as a failure. */
  function Finalize(d: Disk, code: ExitCode, lastMessage: bool, estimated: bool, at: Time,
                    loadFails: bool, first: Faults, reloadFails: bool, second: Faults): (r: (Disk, Outcome)) {
    var (after, outcome) := Attempt(d, loadFails, RecordExit(code, lastMessage, estimated), code, at, first);
    if outcome != Retryable then (after, outcome)
    else Attempt(after, reloadFails, RecordExit(code, false, estimated), code, at, second)
  }

  function ConfirmKill(d: Disk, code: ExitCode, at: Time, loadFails: bool, f: Faults): (r: (Disk, Outcome)) {
    Attempt(d, loadFails, ConfirmKilled(code), code, at, f)
  }

  datatype Launch = Launch(task: Task, timeout: Timeout, model: string, effort: Option<string>, sandbox: string,
                           workingDir: Option<string>, failure: Option<FailureCode>, at: Time)

  function FreshSnapshot(l: Launch): Snapshot {
    Snapshot("", OtherCommand, None, None, 0, None, "", l.effort, l.sandbox, l.workingDir, UNSET, Daemon, StQueued,
             UNSET,
             None, None, None, false, false, None, None, SCHEMA)
  }

  function LaunchBase(d: Disk, l: Launch): Snapshot {
    if d.stored.None? || d.stored.value.taskId == "" then FreshSnapshot(l)
    else
      var s := d.stored.value;
      if s.schema >= SCHEMA_WORKING_DIR && s.workingDir.None? then s.(workingDir := l.workingDir) else s
  }

  function WithFailure(s: Option<Snapshot>, failure: Option<FailureCode>): Option<Snapshot> {
    if s.None? || failure.None? || s.value.schema != SCHEMA then s
    else if Valid(s.value.(failureCode := failure)) then Some(s.value.(failureCode := failure)) else None
  }

  predicate LaunchOk(l: Launch) {
    l.at != UNSET && l.timeout.resolved > 0 && l.model != "" && SandboxOk(l.sandbox)
  }

  const LAUNCH_FAILURE: ExitCode := ExitCode(1)

  function Failed(t: Task, l: Launch): Result {
    var started := if t.state == StQueued then Apply(t, Start(l.timeout, l.model)) else Ok(t);
    if started.Fail? then started else Apply(started.task, RecordExit(LAUNCH_FAILURE, false, true))
  }

  function FailLaunch(d: Disk, l: Launch, loadFails: bool, f: Faults): (r: (Disk, Outcome)) {
    if !LaunchOk(l) || loadFails then (d, Rejected)
    else if d.stored.Some? && Restore(d.stored.value).None? then (d, Rejected)
    else
      var end := Failed(if d.stored.Some? then Restore(d.stored.value).value else l.task, l);
      if end.Fail? then (d, Rejected)
      else WriteTerminal(d, LAUNCH_FAILURE, WithFailure(WithTask(LaunchBase(d, l), end.task, l.at), l.failure), f)
  }

  // ---- what they guarantee ----

  /** A snapshot that carries an exit code agrees with the exit-code file. */
  predicate Ordered(d: Disk) {
    d.stored.Some? && d.stored.value.exitCode.Some? ==> d.exit == Some(d.stored.value.exitCode.value.raw)
  }

  /** The exit-code file is written at most once. */
  predicate WriteOnce(d: Disk, n: Disk) {
    d.exit.Some? ==> n.exit == d.exit
  }

  /** What a use case reports as persisted is there in full. */
  predicate Complete(d: Disk, code: ExitCode) {
    d.exit == Some(code.raw) && d.stored.Some? && Terminal(d.stored.value.state)
        && d.stored.value.exitCode == Some(code)
  }

  predicate Guarantees(d: Disk, r: (Disk, Outcome), code: ExitCode) {
    && WriteOnce(d, r.0)
    && (Ordered(d) ==> Ordered(r.0))
    && (r.1 == Persisted ==> Complete(r.0, code))
    && (d.exit.Some? && d.exit.value != code.raw ==> r.0 == d && r.1 != Persisted)
    && (r.0.stored == d.stored || Complete(r.0, code))
  }

  lemma WriteTerminalGuarantees(d: Disk, code: ExitCode, amended: Option<Snapshot>, f: Faults)
    requires amended.Some? ==> Terminal(amended.value.state) && amended.value.exitCode == Some(code)
    ensures Guarantees(d, WriteTerminal(d, code, amended, f), code)
  {
  }

  /** Every operation that records an exit code ends the task with exactly that code. */
  lemma RecordsCode(t: Task, op: Op, code: ExitCode)
    requires Apply(t, op).Ok?
    requires op == ConfirmKilled(code) || (op.RecordExit? && op.code == code)
    ensures Terminal(Apply(t, op).task.state) && Apply(t, op).task.exitCode == Some(code)
  {
  }

  lemma AttemptGuarantees(d: Disk, loadFails: bool, op: Op, code: ExitCode, at: Time, f: Faults)
    requires op == ConfirmKilled(code) || (op.RecordExit? && op.code == code)
    ensures Guarantees(d, Attempt(d, loadFails, op, code, at, f), code)
  {
    var t := Loaded(d, loadFails);
    if t.Some? && Apply(t.value, op).Ok? {
      RecordsCode(t.value, op, code);
      WriteTerminalGuarantees(d, code, WithTask(d.stored.value, Apply(t.value, op).task, at), f);
    }
  }

  lemma FinalizeGuarantees(d: Disk, code: ExitCode, lastMessage: bool, estimated: bool, at: Time,
                           loadFails: bool, first: Faults, reloadFails: bool, second: Faults)
    ensures Guarantees(d, Finalize(d, code, lastMessage, estimated, at, loadFails, first, reloadFails, second), code)
  {
    var (after, outcome) := Attempt(d, loadFails, RecordExit(code, lastMessage, estimated), code, at, first);
    AttemptGuarantees(d, loadFails, RecordExit(code, lastMessage, estimated), code, at, first);
    AttemptGuarantees(after, reloadFails, RecordExit(code, false, estimated), code, at, second);
    if outcome == Retryable && after.stored != d.stored {
      RetryRejectedAfterLateSave(after, reloadFails, RecordExit(code, false, estimated), code, at, second);
    }
  }

  /** A snapshot save that took effect although it was reported as failed is not overwritten by the
      retry: the reloaded task is terminal and refuses. */
  lemma RetryRejectedAfterLateSave(d: Disk, loadFails: bool, op: Op, code: ExitCode, at: Time, f: Faults)
    requires d.stored.Some? && Terminal(d.stored.value.state)
    ensures Attempt(d, loadFails, op, code, at, f) == (d, Rejected)
  {
    var t := Loaded(d, loadFails);
    if t.Some? && Apply(t.value, op).Ok? {
      ApplyProgress(t.value, op);
    }
  }

  lemma FailLaunchGuarantees(d: Disk, l: Launch, loadFails: bool, f: Faults)
    ensures Guarantees(d, FailLaunch(d, l, loadFails, f), LAUNCH_FAILURE)
  {
    if LaunchOk(l) && !loadFails && !(d.stored.Some? && Restore(d.stored.value).None?) {
      var t := if d.stored.Some? then Restore(d.stored.value).value else l.task;
      if Failed(t, l).Ok? {
        WriteTerminalGuarantees(d, LAUNCH_FAILURE,
              WithFailure(WithTask(LaunchBase(d, l), Failed(t, l).task, l.at), l.failure), f);
      }
    }
  }

  // ---- any mixture of them ----

  datatype Action =
    | Exit(code: ExitCode, lastMessage: bool, estimated: bool, at: Time, loadFails: bool, first: Faults,
           reloadFails: bool, second: Faults)
    | Kill(code: ExitCode, at: Time, loadFails: bool, first: Faults)
    | Abort(launch: Launch, loadFails: bool, first: Faults)
    | Move(op: Op, at: Time, save: Fault)

  /** Operations that end with no exit code to record; the others belong to the three use cases and to
      completing a recovery. */
  predicate Codeless(op: Op) {
    !op.RecordExit? && !op.ConfirmKilled? && !op.CompleteRecovery?
  }

  function Moved(d: Disk, op: Op, at: Time, save: Fault): Disk {
    var t := Loaded(d, false);
    if t.None? || Apply(t.value, op).Fail? || WithTask(d.stored.value, Apply(t.value, op).task, at).None? then d
    else SaveSnapshot(d, WithTask(d.stored.value, Apply(t.value, op).task, at).value, save).0
  }

  function Next(d: Disk, a: Action): Disk {
    match a
    case Exit(code, lastMessage, estimated, at, loadFails, first, reloadFails, second) =>
      Finalize(d, code, lastMessage, estimated, at, loadFails, first, reloadFails, second).0
    case Kill(code, at, loadFails, f) => ConfirmKill(d, code, at, loadFails, f).0
    case Abort(l, loadFails, f) => FailLaunch(d, l, loadFails, f).0
    case Move(op, at, save) => if Codeless(op) then Moved(d, op, at, save) else d
  }

  function Run(d: Disk, actions: seq<Action>): Disk
    decreases |actions|
  {
    if actions == [] then d else Run(Next(d, actions[0]), actions[1..])
  }

  lemma MovedOrdered(d: Disk, op: Op, at: Time, save: Fault)
    requires Ordered(d) && Codeless(op)
    ensures Ordered(Moved(d, op, at, save)) && Moved(d, op, at, save).exit == d.exit
  {
    var t := Loaded(d, false);
    if t.Some? && Apply(t.value, op).Ok? {
      ApplyProgress(t.value, op);
    }
  }

  lemma NextOrdered(d: Disk, a: Action)
    requires Ordered(d)
    ensures Ordered(Next(d, a)) && WriteOnce(d, Next(d, a))
    ensures d.stored.Some? && Terminal(d.stored.value.state) ==> Next(d, a).stored == d.stored
  {
    match a
    case Exit(code, lastMessage, estimated, at, loadFails, first, reloadFails, second) =>
      FinalizeGuarantees(d, code, lastMessage, estimated, at, loadFails, first, reloadFails, second);
      if d.stored.Some? && Terminal(d.stored.value.state) {
        RetryRejectedAfterLateSave(d, loadFails, RecordExit(code, lastMessage, estimated), code, at, first);
      }
    case Kill(code, at, loadFails, f) =>
      AttemptGuarantees(d, loadFails, ConfirmKilled(code), code, at, f);
      if d.stored.Some? && Terminal(d.stored.value.state) {
        RetryRejectedAfterLateSave(d, loadFails, ConfirmKilled(code), code, at, f);
      }
    case Abort(l, loadFails, f) => FailLaunchGuarantees(d, l, loadFails, f); TerminalNotRelaunched(d, l, loadFails, f);
    case Move(op, at, save) =>
      if Codeless(op) {
        MovedOrdered(d, op, at, save);
        TerminalNotMoved(d, op, at, save);
      }
  }

  lemma TerminalNotMoved(d: Disk, op: Op, at: Time, save: Fault)
    ensures d.stored.Some? && Terminal(d.stored.value.state) ==> Moved(d, op, at, save) == d
  {
    var t := Loaded(d, false);
    if t.Some? && Apply(t.value, op).Ok? {
      ApplyProgress(t.value, op);
    }
  }

  lemma TerminalNotRelaunched(d: Disk, l: Launch, loadFails: bool, f: Faults)
    ensures d.stored.Some? && Terminal(d.stored.value.state) ==> FailLaunch(d, l, loadFails, f) == (d, Rejected)
  {
  }

  /** Whatever fails and in whatever order: a stored exit code is always backed by the same code on
      file, a code on file is never replaced, and a terminal snapshot is never replaced. */
  lemma {:induction false} EveryRunOrdered(d: Disk, actions: seq<Action>)
    requires Ordered(d)
    ensures Ordered(Run(d, actions)) && WriteOnce(d, Run(d, actions))
    ensures d.stored.Some? && Terminal(d.stored.value.state) ==> Run(d, actions).stored == d.stored
    decreases |actions|
  {
    if actions != [] {
      NextOrdered(d, actions[0]);
      EveryRunOrdered(Next(d, actions[0]), actions[1..]);
    }
  }
}
