/** The persisted form of a task: validation, restoring and updating
    (internal/domain/tasksnapshot.go). */
module TaskSnapshots {
  import opened Options
  import opened TaskDomain

  /** Which strings are normalized absolute paths, and which slug a task id embeds: both are decided
      by string parsing that is not modelled. */
  const NormalizedPath: string -> bool
  const SlugOf: TaskId -> Option<Slug>

  datatype Route = Daemon | Legacy

  datatype FailureCode = LivenessLockIo | ContractWrite | WorktreeCreate | PtyAllocation | ChildLaunch | OtherFailure

  datatype Snapshot = Snapshot(taskId: TaskId, subcommand: Subcommand, pid: Option<int>, processStartedAt: Option<Time>,
                               resolvedTimeout: int, requestedTimeout: Option<int>, model: string,
                               reasoningEffort: Option<string>,
                               sandboxMode: string, workingDir: Option<string>, requestedAt: Time, route: Route,
                               state: TaskState, stateUpdatedAt: Time, sessionRef: Option<SessionRef>,
                               lastEventAt: Option<Time>,
                               exitCode: Option<ExitCode>, recovered: bool, adopted: bool, origin: Option<Origin>,
                               failureCode: Option<FailureCode>, schema: int)

  const SCHEMA: int := 4
  const SCHEMA_WORKING_DIR: int := 3
  const SCHEMA_PREVIOUS: int := 2

  predicate SandboxOk(mode: string) {
    mode == "read-only" || mode == "workspace-write"
  }

  predicate NeedsProcess(s: TaskState) {
    s in {StRunning, StStalled, StTimeout, StRecovering, StRecovered, StTimeoutLost, StLost, StCompleted}
  }

  predicate MayLackWorkingDir(s: Snapshot) {
    s.pid.None? && s.processStartedAt.None? && s.state in {StQueued, StCancelling, StKilled, StFailed}
  }

  predicate IdentityValid(s: Snapshot) {
    s.taskId != "" && Submittable(s.subcommand) && s.model != "" && SandboxOk(s.sandboxMode) && s.route == Daemon
  }

  predicate ProcessValid(s: Snapshot) {
    && (s.pid.None? <==> s.processStartedAt.None?)
    && (s.pid.Some? ==> s.pid.value > 0)
    && (s.processStartedAt.Some? ==> s.processStartedAt.value != UNSET)
    && !(NeedsProcess(s.state) && s.pid.None? && !s.adopted && !(Terminal(s.state) && s.exitCode.Some?))
  }

  predicate TimesValid(s: Snapshot) {
    && (s.requestedTimeout.Some? ==> s.requestedTimeout.value >= TIMEOUT_MIN)
    && s.resolvedTimeout >= TIMEOUT_MIN
    && s.requestedAt != UNSET && s.stateUpdatedAt != UNSET
  }

  predicate OutcomeValid(s: Snapshot) {
    && (s.exitCode.Some? ==> Terminal(s.state))
    && (s.recovered <==> s.state == StRecovered)
    && (s.origin.Some? <==> RecoveryLineage(s.state))
  }

  predicate FailureValid(s: Snapshot) {
    s.failureCode.Some? ==>
        s.schema == SCHEMA && s.state == StFailed && s.pid.None? && s.failureCode.value != OtherFailure
  }

  predicate WorkingDirValid(s: Snapshot) {
    if s.schema == SCHEMA_PREVIOUS then s.workingDir.None?
    else if s.workingDir.None? then MayLackWorkingDir(s)
    else NormalizedPath(s.workingDir.value)
  }

  predicate Valid(s: Snapshot) {
    && IdentityValid(s) && ProcessValid(s) && TimesValid(s) && OutcomeValid(s)
    && s.schema in {SCHEMA_PREVIOUS, SCHEMA_WORKING_DIR, SCHEMA}
    && FailureValid(s) && WorkingDirValid(s)
  }

  function Restore(s: Snapshot): Option<Task> {
    if !Valid(s) || SlugOf(s.taskId).None? then None
    else Some(Task(s.taskId, s.subcommand, SlugOf(s.taskId).value, s.requestedTimeout, s.requestedAt, s.state, 0,
                   Timeout(s.requestedTimeout, s.resolvedTimeout), s.model,
                   if s.pid.Some? then Some(Process(s.pid.value, s.processStartedAt.value)) else None,
                   if s.lastEventAt.Some? then s.lastEventAt.value else UNSET,
                   s.sessionRef, s.origin, s.adopted, s.exitCode))
  }

  function Updated(s: Snapshot, t: Task, at: Time): Snapshot {
    s.(taskId := t.id, subcommand := t.subcommand, state := t.state, stateUpdatedAt := at, model := t.model,
       requestedTimeout := t.timeout.requested, resolvedTimeout := t.timeout.resolved, requestedAt := t.requestedAt,
       pid := if t.process.Some? then Some(t.process.value.pid) else None,
       processStartedAt := if t.process.Some? then Some(t.process.value.startedAt) else None,
       sessionRef := t.sessionRef, lastEventAt := if t.lastEventAt != UNSET then Some(t.lastEventAt) else None,
       exitCode := t.exitCode, adopted := t.adopted, origin := t.origin,
       recovered := s.recovered || t.state == StRecovered)
  }

  /** The snapshot recording task t, unless it would not validate. */
  function WithTask(s: Snapshot, t: Task, at: Time): Option<Snapshot> {
    var n := Updated(s, t, at);
    if Valid(n) then Some(n) else None
  }

  // ---- round trips ----

  /** Two fields of a task are not stored but recomputed; these are their only sound values. */
  predicate Coherent(t: Task) {
    SlugOf(t.id) == Some(t.slug) && t.requestedTimeout == t.timeout.requested
  }

  lemma RestoredCoherent(s: Snapshot)
    requires Restore(s).Some?
    ensures Coherent(Restore(s).value)
  {
  }

  /** Whatever WithTask accepts is restored to the same task, apart from the queue position, exactly
      when the task's slug and requested timeout are the ones its id and timeout carry. */
  lemma RestoreWithTask(s: Snapshot, t: Task, at: Time)
    requires WithTask(s, t, at).Some?
    ensures Restore(WithTask(s, t, at).value) == Some(t.(queuePosition := 0)) <==> Coherent(t)
  {
    var n := WithTask(s, t, at).value;
    if SlugOf(n.taskId).Some? {
      var r := Restore(n).value;
      assert r.process == t.process by {
        if t.process.Some? {
          assert r.process == Some(Process(t.process.value.pid, t.process.value.startedAt));
        }
      }
    }
  }

  lemma {:induction false} LiveCoherent(t: Task, ops: seq<Op>)
    requires Coherent(t) && t.state != StQueued
    ensures Coherent(Live(t, ops)) && Live(t, ops).state != StQueued
    decreases |ops|
  {
    if ops != [] {
      var r := Apply(t, ops[0]);
      if r.Ok? {
        ApplyKeepsIdentity(t, ops[0]);
        ApplyProgress(t, ops[0]);
        TimeoutFixed(t, ops[0]);
      }
      LiveCoherent(if r.Ok? then r.task else t, ops[1..]);
    }
  }

  /** Only a queued task can be given a timeout and model. */
  lemma TimeoutFixed(t: Task, op: Op)
    requires t.state != StQueued && Apply(t, op).Ok?
    ensures Apply(t, op).task.timeout == t.timeout && Apply(t, op).task.model == t.model
    ensures Apply(t, op).task.state != StQueued
  {
  }

  /** Updating touches nothing that a task does not carry but the time of the last change of state. */
  lemma UpdatedKeeps(s: Snapshot, t: Task, at: Time)
    requires WithTask(s, t, at).Some?
    ensures var n := WithTask(s, t, at).value;
            && n.stateUpdatedAt == at && n.reasoningEffort == s.reasoningEffort && n.sandboxMode == s.sandboxMode
            && n.workingDir == s.workingDir && n.route == s.route && n.failureCode == s.failureCode
            && n.schema == s.schema
  {
  }

  // ---- the validator refuses the impossible ----

  /** A snapshot that contradicts itself is never restored: half a process, no process where there must have been
      one, an exit code before the end, a recovery flag or origin outside its lineage, a launch failure of a task
      that was launched or did not fail, a timeout too short, a schema unknown. */
  lemma ContradictionsRefused(s: Snapshot)
    requires Restore(s).Some?
    ensures s.pid.Some? <==> s.processStartedAt.Some?
    ensures s.state in {StRunning, StStalled, StTimeout, StRecovering} ==> s.pid.Some? || s.adopted
    ensures s.state == StCompleted && s.pid.None? && !s.adopted ==> s.exitCode.Some?
    ensures s.exitCode.Some? ==> s.state in {StCompleted, StFailed, StRecovered, StTimeoutLost, StKilled, StLost}
    ensures s.recovered <==> s.state == StRecovered
    ensures s.origin.Some? <==> s.state in {StRecovering, StRecovered, StTimeoutLost, StLost}
    ensures s.failureCode.Some? ==> s.state == StFailed && s.pid.None? && s.schema == 4
    ensures s.resolvedTimeout >= 1800 && (s.requestedTimeout.Some? ==> s.requestedTimeout.value >= 1800)
    ensures s.schema in {2, 3, 4} && (s.schema == 2 ==> s.workingDir.None?)
    ensures s.workingDir.None? && s.schema > 2 ==>
              s.pid.None? && s.state in {StQueued, StCancelling, StKilled, StFailed}
    ensures s.taskId != "" && s.model != "" && s.route == Daemon && s.sandboxMode in {"read-only", "workspace-write"}
    ensures s.requestedAt != UNSET && s.stateUpdatedAt != UNSET && (s.pid.Some? ==> s.pid.value > 0)
  {
  }

  // ---- the validator refuses no legal successor ----

  /** A snapshot of a task whose process runs or ran: process and working directory are on record. */
  predicate Launched(s: Snapshot) {
    Valid(s) && s.pid.Some? && s.state != StQueued && (s.workingDir.Some? || s.schema == SCHEMA_PREVIOUS)
  }

  /** What a task and the snapshot it is saved into have to agree on for the save to be accepted. */
  predicate Fits(s: Snapshot, t: Task) {
    && Launched(s) && Sound(t)
    && t.id == s.taskId && t.subcommand == s.subcommand && t.model == s.model && t.requestedAt == s.requestedAt
    && t.timeout == Timeout(s.requestedTimeout, s.resolvedTimeout)
    && t.process == Some(Process(s.pid.value, s.processStartedAt.value))
    && (s.recovered ==> t.state == StRecovered)
  }

  lemma FittingAccepted(s: Snapshot, t: Task, at: Time)
    requires Fits(s, t) && at != UNSET
    ensures WithTask(s, t, at).Some?
    ensures Launched(WithTask(s, t, at).value) <==> t.state != StQueued
  {
  }

  lemma RestoredSound(s: Snapshot)
    requires Restore(s).Some? && (s.state == StTimeoutLost ==> s.origin == Some(OriginTimeout))
    requires s.state == StLost ==> s.origin == Some(OriginOrphan)
    requires s.state in {StCompleted, StFailed, StRecovered, StKilled} ==> s.exitCode.Some?
    ensures Sound(Restore(s).value)
  {
  }

  /** Every legal next state of a launched task is accepted: any operation the restored task allows
      gives a task whose snapshot validates, is again launched, and restores to that task. */
  lemma SuccessorAccepted(s: Snapshot, op: Op, at: Time)
    requires Launched(s) && Restore(s).Some? && Apply(Restore(s).value, op).Ok? && at != UNSET
    ensures var t := Apply(Restore(s).value, op).task;
            var n := WithTask(s, t, at);
            n.Some? && Launched(n.value) && Restore(n.value) == Some(t.(queuePosition := 0))
  {
    var t0 := Restore(s).value;
    ApplyProgress(t0, op);
    RestoredSound(s);
    ApplySound(t0, op);
    ApplyKeepsIdentity(t0, op);
    TimeoutFixed(t0, op);
    var t := Apply(t0, op).task;
    assert Fits(s, t);
    FittingAccepted(s, t, at);
    RestoredCoherent(s);
    RestoreWithTask(s, t, at);
  }

  /** Saving after every operation, the way the use cases do, from one launched snapshot. */
  function SaveAll(s: Snapshot, ops: seq<Op>, at: Time): Option<Snapshot>
    decreases |ops|
  {
    if ops == [] then Some(s)
    else if Restore(s).None? then None
    else
      var r := Apply(Restore(s).value, ops[0]);
      if r.Fail? then SaveAll(s, ops[1..], at)
      else
        var n := WithTask(s, r.task, at);
        if n.None? then None else SaveAll(n.value, ops[1..], at)
  }

  /** Over a whole life of saves and restores nothing is refused, and the last snapshot holds exactly
      the task that lived the same life in memory. */
  lemma {:induction false} EveryLifePersists(s: Snapshot, ops: seq<Op>, at: Time)
    requires Launched(s) && Restore(s).Some? && at != UNSET
    ensures SaveAll(s, ops, at).Some? && Launched(SaveAll(s, ops, at).value)
    ensures Restore(SaveAll(s, ops, at).value) == Some(Live(Restore(s).value, ops))
    decreases |ops|
  {
    if ops != [] {
      var t := Restore(s).value;
      var r := Apply(t, ops[0]);
      if r.Fail? {
        EveryLifePersists(s, ops[1..], at);
      } else {
        SuccessorAccepted(s, ops[0], at);
        ApplyProgress(t, ops[0]);
        PositionKept(t, ops[0]);
        EveryLifePersists(WithTask(s, r.task, at).value, ops[1..], at);
      }
    }
  }

  lemma PositionKept(t: Task, op: Op)
    requires t.state != StQueued && Apply(t, op).Ok?
    ensures Apply(t, op).task.queuePosition == t.queuePosition
  {
  }
}
