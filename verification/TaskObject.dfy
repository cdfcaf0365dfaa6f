/** The task aggregate as an object whose methods update its fields (internal/domain/task.go). */
module TaskObject {
  import opened Options
  import opened TaskDomain

  datatype Outcome = Done | Refused(error: Error)

  /** A method did what the operation says: the whole new task, or an error and no change. */
  predicate Performs(before: Task, op: Op, after: Task, outcome: Outcome) {
    match Apply(before, op)
    case Ok(t) => outcome == Done && after == t
    case Fail(e) => outcome == Refused(e) && after == before
  }

  function After(t: Task, op: Op): Task {
    if Apply(t, op).Ok? then Apply(t, op).task else t
  }

  /** What every operation keeps, whether it succeeds or is refused. */
  predicate Kept(before: Task, after: Task) {
    && Sound(after) && Rank(before.state) <= Rank(after.state)
    && (Terminal(before.state) ==> after == before)
    && after.id == before.id && after.subcommand == before.subcommand && after.slug == before.slug
    && after.requestedTimeout == before.requestedTimeout && after.requestedAt == before.requestedAt
    && (before.process.Some? ==> after.process == before.process) && (before.adopted ==> after.adopted)
  }

  lemma OperationKeeps(t: Task, op: Op)
    requires Sound(t)
    ensures Kept(t, After(t, op))
  {
    if Apply(t, op).Ok? {
      ApplyProgress(t, op);
      ApplySound(t, op);
      ApplyKeepsIdentity(t, op);
    }
  }

  lemma {:induction false} LiveAppend(t: Task, ops: seq<Op>, op: Op)
    ensures Live(t, ops + [op]) == After(Live(t, ops), op)
    decreases |ops|
  {
    if ops == [] {
      assert [op][1..] == [] && ops + [op] == [op];
    } else {
      assert (ops + [op])[1..] == ops[1..] + [op];
      LiveAppend(After(t, ops[0]), ops[1..], op);
    }
  }

  /** The object's fields, its first state and everything asked of it since. */
  class TaskAggregate {
    const id: TaskId
    const subcommand: Subcommand
    const slug: Slug
    const requestedTimeout: Option<int>
    const requestedAt: Time
    var state: TaskState
    var queuePosition: int
    var timeout: Timeout
    var model: string
    var process: Option<Process>
    var lastEventAt: Time
    var sessionRef: Option<SessionRef>
    var origin: Option<Origin>
    var adopted: bool
    var exitCode: Option<ExitCode>
    ghost const born: Task
    ghost var life: seq<Op>

    ghost function View(): Task
      reads this
    {
      Task(id, subcommand, slug, requestedTimeout, requestedAt, state, queuePosition, timeout, model, process,
           lastEventAt, sessionRef, origin, adopted, exitCode)
    }

    /** The object is what its whole life has made of a sound task. */
    ghost predicate Valid()
      reads this
    {
      Sound(born) && Sound(View()) && View() == Live(born, life)
    }

    /** An operation was performed or refused, what every operation keeps was kept, and it is on record. */
    ghost predicate Lived(before: Task, past: seq<Op>, op: Op, outcome: Outcome)
      reads this
    {
      Valid() && life == past + [op] && Performs(before, op, View(), outcome) && Kept(before, View())
    }

    ghost method Record(before: Task, op: Op, outcome: Outcome)
      requires Sound(born) && Sound(before) && before == Live(born, life) && Performs(before, op, View(), outcome)
      modifies `life
      ensures Lived(before, old(life), op, outcome)
    {
      OperationKeeps(before, op);
      LiveAppend(born, life, op);
      life := life + [op];
    }

    constructor (id: TaskId, subcommand: Subcommand, slug: Slug, requested: Option<int>, at: Time, position: int)
      requires Submittable(subcommand)
      ensures NewTask(id, subcommand, slug, requested, at, position) == Some(View()) && Valid() && life == []
    {
      this.id, this.subcommand, this.slug, requestedTimeout, requestedAt := id, subcommand, slug, requested, at;
      state, queuePosition, timeout, model, process := StQueued, position, Timeout(None, 0), "", None;
      lastEventAt, sessionRef, origin, adopted, exitCode := UNSET, None, None, false, None;
      life := [];
      born := NewTask(id, subcommand, slug, requested, at, position).value;
    }

    /** A task restored from its snapshot. */
    constructor Restored(t: Task)
      requires Sound(t)
      ensures View() == t && Valid() && life == []
    {
      id, subcommand, slug, requestedTimeout, requestedAt := t.id, t.subcommand, t.slug, t.requestedTimeout,
          t.requestedAt;
      state, queuePosition, timeout, model, process := t.state, t.queuePosition, t.timeout, t.model, t.process;
      lastEventAt, sessionRef, origin, adopted, exitCode := t.lastEventAt, t.sessionRef, t.origin, t.adopted,
          t.exitCode;
      life := [];
      born := t;
    }

    /** The only state-writing operation guarded by the transition table. */
    method Transition(e: Event, destination: TaskState) returns (outcome: Outcome)
      modifies `state
      ensures match Moved(old(View()), e, destination)
              case Ok(t) => outcome == Done && View() == t
              case Fail(error) => outcome == Refused(error) && View() == old(View())
    {
      if Terminal(state) && e == CancelRequested {
        return Refused(AlreadyTerminal);
      }
      if !Allowed(state, e) {
        return Refused(InvalidTransition);
      }
      state := destination;
      return Done;
    }

    method Requeue(position: int) returns (outcome: Outcome)
      requires Valid()
      modifies this
      ensures Lived(old(View()), old(life), Op.Requeue(position), outcome)
    {
      ghost var before := View();
      outcome := Transition(Queued, StQueued);
      if outcome.Done? {
        queuePosition := position;
      }
      Record(before, Op.Requeue(position), outcome);
    }

    method Start(resolved: Timeout, name: string) returns (outcome: Outcome)
      requires Valid()
      modifies this
      ensures Lived(old(View()), old(life), Op.Start(resolved, name), outcome)
    {
      ghost var before := View();
      outcome := Transition(Started, StStarting);
      if outcome.Done? {
        timeout, model := resolved, name;
      }
      Record(before, Op.Start(resolved, name), outcome);
    }

    method RecordProcess(pid: int, startedAt: Time) returns (outcome: Outcome)
      requires Valid()
      modifies this
      ensures Lived(old(View()), old(life), Op.RecordProcess(pid, startedAt), outcome)
    {
      ghost var before := View();
      if state != StStarting || process.Some? {
        outcome := Refused(InvalidTransition);
      } else if pid <= 0 || startedAt == UNSET {
        outcome := Refused(BadArgument);
      } else {
        process := Some(Process(pid, startedAt));
        outcome := Done;
      }
      Record(before, Op.RecordProcess(pid, startedAt), outcome);
    }

    method ConfirmRunning() returns (outcome: Outcome)
      requires Valid()
      modifies this
      ensures Lived(old(View()), old(life), Op.ConfirmRunning, outcome)
    {
      ghost var before := View();
      if state == StStarting || state == StAdopted {
        state := StRunning;
        outcome := Done;
      } else {
        outcome := Refused(InvalidTransition);
      }
      Record(before, Op.ConfirmRunning, outcome);
    }

    method Observe(at: Time) returns (outcome: Outcome)
      requires Valid()
      modifies this
      ensures Lived(old(View()), old(life), Op.Observe(at), outcome)
    {
      ghost var before := View();
      outcome := Transition(EventObserved, StRunning);
      if outcome.Done? {
        lastEventAt := at;
      }
      Record(before, Op.Observe(at), outcome);
    }

    method MarkStalled() returns (outcome: Outcome)
      requires Valid()
      modifies this
      ensures Lived(old(View()), old(life), Op.MarkStalled, outcome)
    {
      ghost var before := View();
      outcome := Transition(Stalled, StStalled);
      Record(before, Op.MarkStalled, outcome);
    }

    method RecordExit(code: ExitCode, lastMessage: bool, estimated: bool) returns (outcome: Outcome)
      requires Valid()
      modifies this
      ensures Lived(old(View()), old(life), Op.RecordExit(code, lastMessage, estimated), outcome)
    {
      ghost var before := View();
      if state == StOrphaned && !estimated {
        outcome := Refused(BadArgument);
      } else {
        var destination := StFailed;
        if Class(code) == ClassSuccess && lastMessage {
          destination := StCompleted;
        }
        outcome := Transition(Exited, destination);
        if outcome.Done? {
          exitCode := Some(code);
        }
      }
      Record(before, Op.RecordExit(code, lastMessage, estimated), outcome);
    }

    method MarkTimedOut(session: Option<SessionRef>) returns (outcome: Outcome)
      requires Valid()
      modifies this
      ensures Lived(old(View()), old(life), Op.MarkTimedOut(session), outcome)
    {
      ghost var before := View();
      outcome := Transition(TimedOut, StTimeout);
      if outcome.Done? {
        sessionRef := session;
      }
      Record(before, Op.MarkTimedOut(session), outcome);
    }

    method BeginRecovery(session: Option<SessionRef>) returns (outcome: Outcome)
      requires Valid()
      modifies this
      ensures Lived(old(View()), old(life), Op.BeginRecovery(session), outcome)
    {
      ghost var before := View();
      var from := OriginTimeout;
      if state == StOrphaned {
        from := OriginOrphan;
      }
      outcome := Transition(RecoveryAttempted, StRecovering);
      if outcome.Done? {
        origin, sessionRef := Some(from), session;
        assert View() == before.(state := StRecovering, origin := Some(from), sessionRef := session);
      }
      Record(before, Op.BeginRecovery(session), outcome);
    }

    method CompleteRecovery(code: ExitCode) returns (outcome: Outcome)
      requires Valid()
      modifies this
      ensures Lived(old(View()), old(life), Op.CompleteRecovery(code), outcome)
    {
      ghost var before := View();
      outcome := Transition(RecoverySucceeded, StRecovered);
      if outcome.Done? {
        exitCode := Some(code);
      }
      Record(before, Op.CompleteRecovery(code), outcome);
    }

    method FailRecovery() returns (outcome: Outcome)
      requires Valid()
      modifies this
      ensures Lived(old(View()), old(life), Op.FailRecovery, outcome)
    {
      ghost var before := View();
      var destination := StLost;
      if origin == Some(OriginTimeout) {
        destination := StTimeoutLost;
      }
      outcome := Transition(RecoveryFailed, destination);
      Record(before, Op.FailRecovery, outcome);
    }

    /** Adoption passes through the adopted state and never stops there. */
    method Adopt(lockAcquired: bool) returns (outcome: Outcome)
      requires Valid()
      modifies this
      ensures Lived(old(View()), old(life), Op.Adopt(lockAcquired), outcome)
    {
      ghost var before := View();
      outcome := Transition(Adopted, StAdopted);
      if outcome.Done? {
        outcome := LeaveAdopted(lockAcquired);
      }
      Record(before, Op.Adopt(lockAcquired), outcome);
    }

    /** The second half of adoption always succeeds. */
    method LeaveAdopted(lockAcquired: bool) returns (outcome: Outcome)
      requires state == StAdopted
      modifies `state, `adopted
      ensures outcome == Done
      ensures View() == old(View()).(adopted := true, state := if lockAcquired then StOrphaned else StRunning)
    {
      adopted := true;
      if lockAcquired {
        outcome := Transition(OrphanDetected, StOrphaned);
      } else {
        state := StRunning;
        outcome := Done;
      }
    }

    method DetectOrphan(known: bool) returns (outcome: Outcome)
      requires Valid()
      modifies this
      ensures Lived(old(View()), old(life), Op.DetectOrphan(known), outcome)
    {
      ghost var before := View();
      if known {
        outcome := Transition(OrphanDetected, StOrphaned);
      } else {
        outcome := Refused(BadArgument);
      }
      Record(before, Op.DetectOrphan(known), outcome);
    }

    method RequestCancel() returns (outcome: Outcome)
      requires Valid()
      modifies this
      ensures Lived(old(View()), old(life), Op.RequestCancel, outcome)
    {
      ghost var before := View();
      outcome := Transition(CancelRequested, StCancelling);
      Record(before, Op.RequestCancel, outcome);
    }

    method ConfirmKilled(code: ExitCode) returns (outcome: Outcome)
      requires Valid()
      modifies this
      ensures Lived(old(View()), old(life), Op.ConfirmKilled(code), outcome)
    {
      ghost var before := View();
      outcome := Transition(Killed, StKilled);
      if outcome.Done? {
        exitCode := Some(code);
        assert View() == before.(state := StKilled, exitCode := Some(code));
      }
      Record(before, Op.ConfirmKilled(code), outcome);
    }
  }
}
