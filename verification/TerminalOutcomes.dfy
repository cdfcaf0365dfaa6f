/** Exactly when each way of ending a task persists, is refused, fails for good or may be tried again, and what
    is then on disk (internal/execution/finalize.go, internal/execution/cancel.go,
    internal/execution/usecase/launchfailure.go, internal/contract/exitcode.go). */
module TerminalOutcomes {
  import opened Options
  import opened TaskDomain
  import opened TaskOutcomes
  import opened TaskSnapshots
  import opened TerminalWrites

  // ---- one terminal write ----

  /** The file does not hold another code. */
  predicate Agrees(exit: Option<int>, code: ExitCode) {
    exit == None || exit == Some(code.raw)
  }

  /** The code is on file, or gets there. */
  predicate CodeFiled(exit: Option<int>, code: ExitCode, f: Faults) {
    !f.readFails && (exit == Some(code.raw) || (exit == None && f.write == Works))
  }

  function ExitAfter(exit: Option<int>, code: ExitCode, f: Faults): Option<int> {
    if exit == None && !f.readFails && f.write != FailsClean then Some(code.raw) else exit
  }

  lemma WriteTerminalOutcome(d: Disk, code: ExitCode, amended: Option<Snapshot>, f: Faults)
    ensures var (d', outcome) := WriteTerminal(d, code, amended, f);
            && (outcome == Persisted <==> CodeFiled(d.exit, code, f) && amended.Some? && f.save == Works)
            && (outcome == Fatal <==> f.readFails || !Agrees(d.exit, code)
                                      || (CodeFiled(d.exit, code, f) && amended.None?))
            && (outcome == Retryable <==> !f.readFails && Agrees(d.exit, code)
                                          && (CodeFiled(d.exit, code, f) ==> amended.Some? && f.save != Works))
            && d'.exit == ExitAfter(d.exit, code, f)
            && (if CodeFiled(d.exit, code, f) && amended.Some? && f.save != FailsClean
                then d'.stored == amended else d'.stored == d.stored)
  {
  }

  // ---- a launched task ----

  /** The task on disk was launched and would accept the operation now. */
  predicate Accepts(d: Disk, op: Op) {
    && d.stored.Some? && Launched(d.stored.value) && Restore(d.stored.value).Some?
    && Apply(Restore(d.stored.value).value, op).Ok?
  }

  /** What is stored is the task after the operation. */
  predicate Holds(d: Disk, before: Disk, op: Op)
    requires Accepts(before, op)
  {
    d.stored.Some? && Restore(d.stored.value) == Some(Apply(Restore(before.stored.value).value, op).task)
  }

  /** One attempt on a launched task that accepts the operation: it persists exactly if the code gets on file and
      the snapshot is saved, and the snapshot is saved, reported or not, exactly if it is that of the next state. */
  lemma AttemptOutcome(d: Disk, op: Op, code: ExitCode, at: Time, f: Faults)
    requires Accepts(d, op) && at != UNSET
    ensures var (d', outcome) := Attempt(d, false, op, code, at, f);
            var filed := CodeFiled(d.exit, code, f);
            && (outcome == Persisted <==> filed && f.save == Works)
            && (outcome == Fatal <==> f.readFails || !Agrees(d.exit, code))
            && (outcome == Retryable <==> !f.readFails && Agrees(d.exit, code) && (filed ==> f.save != Works))
            && d'.exit == ExitAfter(d.exit, code, f)
            && (filed && f.save != FailsClean ==> Holds(d', d, op) && Launched(d'.stored.value))
            && (!filed || f.save == FailsClean ==> d'.stored == d.stored)
  {
    var t := Restore(d.stored.value).value;
    SuccessorAccepted(d.stored.value, op, at);
    ApplyProgress(t, op);
    PositionKept(t, op);
    WriteTerminalOutcome(d, code, WithTask(d.stored.value, Apply(t, op).task, at), f);
  }

  /** Refused, and nothing touched, exactly if the task cannot be loaded or does not accept the operation. */
  lemma AttemptRefused(d: Disk, loadFails: bool, op: Op, code: ExitCode, at: Time, f: Faults)
    ensures var r := Attempt(d, loadFails, op, code, at, f);
            && (r.1 == Rejected <==> loadFails || d.stored.None? || Restore(d.stored.value).None?
                                     || Apply(Restore(d.stored.value).value, op).Fail?)
            && (r.1 == Rejected ==> r.0 == d)
  {
  }

  // ---- recording an exit ----

  /** The first attempt saved the snapshot although the save was reported as failed. */
  predicate SavedUnseen(d: Disk, code: ExitCode, first: Faults) {
    CodeFiled(d.exit, code, first) && first.save == FailsLate
  }

  predicate FirstPersists(d: Disk, code: ExitCode, first: Faults) {
    CodeFiled(d.exit, code, first) && first.save == Works
  }

  /** The first attempt left something to try again, and the second works. */
  predicate RetryPersists(d: Disk, code: ExitCode, first: Faults, reloadFails: bool, second: Faults) {
    && !first.readFails && Agrees(d.exit, code) && !FirstPersists(d, code, first) && !SavedUnseen(d, code, first)
    && !reloadFails && CodeFiled(ExitAfter(d.exit, code, first), code, second) && second.save == Works
  }

  /** Finalizing a launched task that can exit persists exactly if the first attempt works, or fails leaving the
      snapshot as it was and the retry works. What is persisted is completed exactly if the first attempt worked,
      the code is zero and there is a last message; otherwise it is failed. */
  lemma FinalizeOutcome(d: Disk, code: ExitCode, lastMessage: bool, estimated: bool, at: Time,
                        first: Faults, reloadFails: bool, second: Faults)
    requires Accepts(d, RecordExit(code, lastMessage, estimated)) && at != UNSET
    ensures var (d', outcome) := Finalize(d, code, lastMessage, estimated, at, false, first, reloadFails, second);
            var once := FirstPersists(d, code, first);
            && (outcome == Persisted <==> once || RetryPersists(d, code, first, reloadFails, second))
            && (outcome == Persisted ==>
                  && d'.exit == Some(code.raw) && d'.stored.Some? && d'.stored.value.exitCode == Some(code)
                  && d'.stored.value.state == if once && code.raw == 0 && lastMessage then StCompleted else StFailed)
  {
    var op, again := RecordExit(code, lastMessage, estimated), RecordExit(code, false, estimated);
    var (after, outcome) := Attempt(d, false, op, code, at, first);
    AttemptOutcome(d, op, code, at, first);
    FinalizeGuarantees(d, code, lastMessage, estimated, at, false, first, reloadFails, second);
    Ends(d, op);
    if outcome == Retryable && SavedUnseen(d, code, first) {
      RetryRejectedAfterLateSave(after, reloadFails, again, code, at, second);
    } else if outcome == Retryable {
      RetryOutcome(d, after, op, reloadFails, at, second);
    }
  }

  /** Trying again a task left as it was. */
  lemma RetryOutcome(d: Disk, after: Disk, op: Op, reloadFails: bool, at: Time, f: Faults)
    requires op.RecordExit? && Accepts(d, op) && after.stored == d.stored && at != UNSET
    ensures var (d', outcome) := Attempt(after, reloadFails, op.(lastMessage := false), op.code, at, f);
            && (outcome == Persisted <==> !reloadFails && CodeFiled(after.exit, op.code, f) && f.save == Works)
            && (outcome == Persisted ==> d'.stored.Some? && d'.stored.value.state == StFailed)
  {
    var again := op.(lastMessage := false);
    if !reloadFails {
      assert Accepts(after, again);
      AttemptOutcome(after, again, op.code, at, f);
      Ends(after, again);
    }
  }

  /** The task after an exit, as it is stored. */
  lemma Ends(d: Disk, op: Op)
    requires op.RecordExit? && Accepts(d, op)
    ensures Terminal(Apply(Restore(d.stored.value).value, op).task.state)
    ensures forall d' :: Holds(d', d, op) ==>
              d'.stored.value.exitCode == Some(op.code)
              && d'.stored.value.state == if op.code.raw == 0 && op.lastMessage then StCompleted else StFailed
  {
    ApplyLeadsTo(Restore(d.stored.value).value, op);
  }

  /** Confirming a kill persists the killed task exactly if the code gets on file and the snapshot is saved. */
  lemma ConfirmKillOutcome(d: Disk, code: ExitCode, at: Time, f: Faults)
    requires d.stored.Some? && Launched(d.stored.value) && Restore(d.stored.value).Some? && at != UNSET
    requires d.stored.value.state == StCancelling
    ensures var (d', outcome) := ConfirmKill(d, code, at, false, f);
            && (outcome == Persisted <==> CodeFiled(d.exit, code, f) && f.save == Works)
            && (outcome == Persisted ==>
                  d'.stored.Some? && d'.stored.value.state == StKilled && d'.stored.value.exitCode == Some(code)
                  && d'.exit == Some(code.raw))
  {
    AttemptOutcome(d, ConfirmKilled(code), code, at, f);
  }

  // ---- a launch that failed ----

  /** A task just taken from the queue, with what its launch resolved. */
  predicate Launching(l: Launch) {
    && LaunchOk(l) && TimeoutOk(l.timeout) && l.timeout.requested == l.task.requestedTimeout
    && l.task.state == StQueued && l.task.id != "" && Submittable(l.task.subcommand) && Sound(l.task)
    && l.task.requestedAt != UNSET && l.task.process.None? && !l.task.adopted
    && (l.workingDir.Some? ==> NormalizedPath(l.workingDir.value)) && l.failure != Some(OtherFailure)
  }

  /** Nothing was stored yet: the launch is recorded as failed, with its reason, exactly if the code gets on file
      and the snapshot is saved. */
  lemma FailLaunchOutcome(d: Disk, l: Launch, f: Faults)
    requires Launching(l) && d.stored.None?
    ensures var (d', outcome) := FailLaunch(d, l, false, f);
            && (outcome == Persisted <==> CodeFiled(d.exit, LAUNCH_FAILURE, f) && f.save == Works)
            && (outcome == Fatal <==> f.readFails || !Agrees(d.exit, LAUNCH_FAILURE))
            && (outcome == Persisted ==>
                  && d'.exit == Some(1) && d'.stored.Some? && d'.stored.value.taskId == l.task.id
                  && d'.stored.value.state == StFailed && d'.stored.value.exitCode == Some(ExitCode(1))
                  && d'.stored.value.failureCode == l.failure && d'.stored.value.model == l.model
                  && d'.stored.value.resolvedTimeout == l.timeout.resolved)
  {
    var end := Failed(l.task, l);
    FailedQueued(l.task, l);
    var amended := WithFailure(WithTask(FreshSnapshot(l), end.task, l.at), l.failure);
    FreshValid(l, end.task);
    WriteTerminalOutcome(d, LAUNCH_FAILURE, amended, f);
  }

  /** A task stored when it was admitted or started, without a process yet, is recorded as failed in the same
      way; the reason is kept if the snapshot is of the current schema. */
  lemma FailPreparedOutcome(d: Disk, l: Launch, f: Faults)
    requires LaunchOk(l) && TimeoutOk(l.timeout) && l.failure != Some(OtherFailure)
    requires l.workingDir.Some? ==> NormalizedPath(l.workingDir.value)
    requires d.stored.Some? && Restore(d.stored.value).Some? && d.stored.value.pid.None?
    requires d.stored.value.state in {StQueued, StStarting}
    ensures var (d', outcome) := FailLaunch(d, l, false, f);
            && (outcome == Persisted <==> CodeFiled(d.exit, LAUNCH_FAILURE, f) && f.save == Works)
            && (outcome == Persisted ==>
                  && d'.exit == Some(1) && d'.stored.Some? && d'.stored.value.taskId == d.stored.value.taskId
                  && d'.stored.value.state == StFailed && d'.stored.value.exitCode == Some(ExitCode(1))
                  && d'.stored.value.failureCode == if d.stored.value.schema == SCHEMA then l.failure else None)
  {
    var t := Restore(d.stored.value).value;
    var base := LaunchBase(d, l);
    PreparedFails(d.stored.value, t, l);
    PreparedValid(d.stored.value, base, l, Failed(t, l).task);
    FailLaunchWrites(d, l, t, f);
    WriteTerminalOutcome(d, LAUNCH_FAILURE, WithFailure(WithTask(base, Failed(t, l).task, l.at), l.failure), f);
  }

  lemma PreparedFails(s: Snapshot, t: Task, l: Launch)
    requires Restore(s) == Some(t) && s.pid.None? && s.state in {StQueued, StStarting}
    requires LaunchOk(l) && TimeoutOk(l.timeout)
    ensures var r := Failed(t, l);
            && r.Ok? && r.task.state == StFailed && r.task.process.None? && r.task.exitCode == Some(LAUNCH_FAILURE)
            && r.task.origin.None? && r.task.id == s.taskId && r.task.subcommand == s.subcommand
            && r.task.requestedAt == s.requestedAt && TimeoutOk(r.task.timeout) && r.task.model != ""
  {
    if t.state == StQueued {
      FailedQueued(t, l);
    }
  }

  lemma FailLaunchWrites(d: Disk, l: Launch, t: Task, f: Faults)
    requires LaunchOk(l) && d.stored.Some? && Restore(d.stored.value) == Some(t) && Failed(t, l).Ok?
    ensures FailLaunch(d, l, false, f) ==
            WriteTerminal(d, LAUNCH_FAILURE,
                  WithFailure(WithTask(LaunchBase(d, l), Failed(t, l).task, l.at), l.failure), f)
  {
  }

  lemma PreparedValid(s: Snapshot, base: Snapshot, l: Launch, end: Task)
    requires Valid(s) && s.pid.None? && s.state in {StQueued, StStarting}
    requires (base == s || base == s.(workingDir := l.workingDir))
    requires s.workingDir.None? && s.schema >= SCHEMA_WORKING_DIR ==> base.workingDir == l.workingDir
    requires base.schema == SCHEMA_PREVIOUS ==> base == s
    requires LaunchOk(l) && (l.workingDir.Some? ==> NormalizedPath(l.workingDir.value))
    requires l.failure != Some(OtherFailure)
    requires end.state == StFailed && end.process.None? && end.exitCode == Some(LAUNCH_FAILURE) && end.origin.None?
    requires end.id == s.taskId && end.subcommand == s.subcommand && end.requestedAt == s.requestedAt
    requires TimeoutOk(end.timeout) && end.model != ""
    ensures var n := Updated(base, end, l.at);
            WithFailure(WithTask(base, end, l.at), l.failure) ==
              Some(if s.schema == SCHEMA then n.(failureCode := l.failure) else n)
    ensures s.failureCode.None?
  {
  }

  /** A task whose process is on record cannot be given a launch failure's reason: with one, the snapshot does not
      validate and the outcome is fatal, the exit code filed all the same. */
  lemma FailLaunchedOutcome(d: Disk, l: Launch, f: Faults)
    requires LaunchOk(l) && Accepts(d, RecordExit(LAUNCH_FAILURE, false, true))
    ensures var (d', outcome) := FailLaunch(d, l, false, f);
            var reason := l.failure.Some? && d.stored.value.schema == SCHEMA;
            && (outcome == Persisted <==> CodeFiled(d.exit, LAUNCH_FAILURE, f) && f.save == Works && !reason)
            && (outcome == Fatal <==> f.readFails || !Agrees(d.exit, LAUNCH_FAILURE)
                                      || (CodeFiled(d.exit, LAUNCH_FAILURE, f) && reason))
            && d'.exit == ExitAfter(d.exit, LAUNCH_FAILURE, f)
            && (reason ==> d'.stored == d.stored)
            && (outcome == Persisted ==> d'.stored.Some? && d'.stored.value.state == StFailed)
  {
    var op := RecordExit(LAUNCH_FAILURE, false, true);
    var t := Restore(d.stored.value).value;
    var end := Apply(t, op).task;
    SuccessorAccepted(d.stored.value, op, l.at);
    assert LaunchBase(d, l) == d.stored.value && Failed(t, l) == Ok(end);
    var n := WithTask(d.stored.value, end, l.at);
    assert l.failure.Some? ==> !FailureValid(n.value.(failureCode := l.failure));
    WriteTerminalOutcome(d, LAUNCH_FAILURE, WithFailure(n, l.failure), f);
  }

  lemma FailedQueued(t: Task, l: Launch)
    requires t.state == StQueued
    ensures Failed(t, l) ==
              Ok(t.(state := StFailed, timeout := l.timeout, model := l.model, exitCode := Some(LAUNCH_FAILURE)))
  {
  }

  lemma FreshValid(l: Launch, end: Task)
    requires Launching(l)
    requires end == l.task.(state := StFailed, timeout := l.timeout, model := l.model, exitCode := Some(LAUNCH_FAILURE))
    ensures var n := Updated(FreshSnapshot(l), end, l.at);
            WithFailure(WithTask(FreshSnapshot(l), end, l.at), l.failure) ==
              Some(if l.failure.Some? then n.(failureCode := l.failure) else n)
  {
  }
}
