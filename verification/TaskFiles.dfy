/** One task's files, written in place by the use cases that end a task. Failures of the file system are
    inputs (internal/execution/finalize.go, internal/execution/cancel.go,
    internal/execution/usecase/launchfailure.go, internal/contract/exitcode.go). */
module TaskFiles {
  import opened Options
  import opened TaskDomain
  import opened TaskSnapshots
  import opened TerminalWrites

  class Files {
    var exit: Option<int>
    var stored: Option<Snapshot>

    ghost function View(): Disk
      reads this
    {
      Disk(exit, stored)
    }

    constructor (exit: Option<int>, stored: Option<Snapshot>)
      ensures View() == Disk(exit, stored)
    {
      this.exit, this.stored := exit, stored;
    }

    method WriteExitCodeIdempotently(code: ExitCode, f: Faults) returns (outcome: ExitOutcome)
      modifies this
      ensures (View(), outcome) == WriteExit(old(View()), code, f)
      ensures WriteOnce(old(View()), View()) && stored == old(stored)
      ensures outcome == Recorded ==> exit == Some(code.raw)
    {
      if f.readFails {
        return Unreadable;
      }
      if exit.Some? && exit.value != code.raw {
        return Conflict;
      }
      if exit.None? {
        if f.write != FailsClean {
          exit := Some(code.raw);
        }
        if f.write != Works {
          return WriteFailed;
        }
      }
      return Recorded;
    }

    method Save(s: Snapshot, fault: Fault) returns (ok: bool)
      modifies this
      ensures (View(), ok) == SaveSnapshot(old(View()), s, fault)
    {
      if fault != FailsClean {
        stored := Some(s);
      }
      ok := fault == Works;
    }

    method WriteTerminalState(code: ExitCode, amended: Option<Snapshot>, f: Faults) returns (outcome: Outcome)
      modifies this
      ensures (View(), outcome) == WriteTerminal(old(View()), code, amended, f)
    {
      var written := WriteExitCodeIdempotently(code, f);
      if written == Conflict || written == Unreadable {
        return Fatal;
      }
      if written == WriteFailed {
        return Retryable;
      }
      if amended.None? {
        return Fatal;
      }
      var ok := Save(amended.value, f.save);
      return if ok then Persisted else Retryable;
    }

    method TryToEnd(loadFails: bool, op: Op, code: ExitCode, at: Time, f: Faults) returns (outcome: Outcome)
      modifies this
      ensures (View(), outcome) == Attempt(old(View()), loadFails, op, code, at, f)
    {
      if loadFails || stored.None? {
        return Rejected;
      }
      var task := Restore(stored.value);
      if task.None? {
        return Rejected;
      }
      var ended := Apply(task.value, op);
      if ended.Fail? {
        return Rejected;
      }
      outcome := WriteTerminalState(code, WithTask(stored.value, ended.task, at), f);
    }

    method Finalize(code: ExitCode, lastMessage: bool, estimated: bool, at: Time,
                    loadFails: bool, first: Faults, reloadFails: bool, second: Faults) returns (outcome: Outcome)
      modifies this
      ensures Guarantees(old(View()), (View(), outcome), code)
      ensures (View(), outcome) ==
                TerminalWrites.Finalize(old(View()), code, lastMessage, estimated, at, loadFails, first,
                      reloadFails, second)
    {
      ghost var before := View();
      outcome := TryToEnd(loadFails, RecordExit(code, lastMessage, estimated), code, at, first);
      if outcome == Retryable {
        outcome := TryToEnd(reloadFails, RecordExit(code, false, estimated), code, at, second);
      }
      FinalizeGuarantees(before, code, lastMessage, estimated, at, loadFails, first, reloadFails, second);
    }

    method ConfirmTaskKilled(code: ExitCode, at: Time, loadFails: bool, f: Faults) returns (outcome: Outcome)
      modifies this
      ensures Guarantees(old(View()), (View(), outcome), code)
      ensures (View(), outcome) == ConfirmKill(old(View()), code, at, loadFails, f)
    {
      ghost var before := View();
      outcome := TryToEnd(loadFails, ConfirmKilled(code), code, at, f);
      AttemptGuarantees(before, loadFails, ConfirmKilled(code), code, at, f);
    }

    method FailTaskLaunch(l: Launch, loadFails: bool, f: Faults) returns (outcome: Outcome)
      modifies this
      ensures Guarantees(old(View()), (View(), outcome), LAUNCH_FAILURE)
      ensures (View(), outcome) == FailLaunch(old(View()), l, loadFails, f)
    {
      FailLaunchGuarantees(View(), l, loadFails, f);
      if !LaunchOk(l) || loadFails {
        return Rejected;
      }
      var task := l.task;
      if stored.Some? {
        var restored := Restore(stored.value);
        if restored.None? {
          return Rejected;
        }
        task := restored.value;
      }
      var ended := Failed(task, l);
      if ended.Fail? {
        return Rejected;
      }
      var base := LaunchBase(Disk(exit, stored), l);
      outcome := WriteTerminalState(LAUNCH_FAILURE, WithFailure(WithTask(base, ended.task, l.at), l.failure), f);
    }
  }
}
