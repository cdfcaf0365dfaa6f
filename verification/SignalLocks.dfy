/** The authority validator step by step, between lock and unlock, interleaved with everyone else who
    wants the task mutex or the ownership registry (internal/recovery/process_signal_authority.go,
    internal/execution/lifecycle_ownership.go). */
module SignalLocks {
  import opened Options
  import opened TaskDomain
  import opened TaskSnapshots
  import opened PendingModel
  import opened Signals
  import Leases

  /** Where a validator stands: before the task mutex; holding it; with a matching snapshot loaded; with
      the registry's read lock as well; cleared to act; on its way out. */
  datatype Stage =
    | Entering
    | Holding
    | Loaded(seen: Snapshot)
    | Reading(seen: Snapshot)
    | Cleared(seen: Snapshot)
    | Leaving

  /** A validator of one signal, or anybody who changes a task's snapshot under its mutex. */
  datatype Thread =
    | Validator(authority: Authority, kind: Kind, stage: Stage)
    | Saver(id: TaskId, holding: bool)

  datatype World = World(system: System, locks: map<TaskId, nat>, readers: set<nat>, threads: map<nat, Thread>)

  datatype Event =
    | BeginSignal(i: nat, authority: Authority, kind: Kind)
    | BeginSave(i: nat, id: TaskId)
    | Lock(i: nat)
    | Load(i: nat, fails: bool)
    | ReadLock(i: nat)
    | CheckLease(i: nat)
    | Act(i: nat, fails: bool)
    | ReadUnlock(i: nat)
    | Unlock(i: nat)
    | SaveTask(i: nat, op: TaskDomain.Op, at: Time)
    | AmendTask(i: nat, snapshot: Snapshot)
    | CreateTask(id: TaskId, snapshot: Snapshot)
    | ChangeLease(lease: Leases.Op)

  function TaskOf(t: Thread): TaskId {
    match t
    case Validator(a, _, _) => a.taskId
    case Saver(id, _) => id
  }

  predicate Holds(t: Thread) {
    match t
    case Validator(_, _, stage) => stage != Entering
    case Saver(_, holding) => holding
  }

  function Entered(t: Thread): Thread {
    match t
    case Validator(_, _, _) => t.(stage := Holding)
    case Saver(_, _) => t.(holding := true)
  }

  /** What loading under the mutex leads to. */
  function AfterLoad(y: System, a: Authority, fails: bool): Stage {
    if fails || a.taskId !in y.tasks || !Matches(y.tasks[a.taskId], a) then Leaving
    else if a.generation.None? then Cleared(y.tasks[a.taskId])
    else Loaded(y.tasks[a.taskId])
  }

  predicate At(w: World, i: nat, stage: Stage) {
    i in w.threads && w.threads[i].Validator? && w.threads[i].stage == stage
  }

  predicate Can(w: World, e: Event) {
    match e
    case BeginSignal(i, a, _) => i !in w.threads && ValidAuthority(a)
    case BeginSave(i, _) => i !in w.threads
    case Lock(i) => i in w.threads && !Holds(w.threads[i]) && TaskOf(w.threads[i]) !in w.locks
    case Load(i, _) => At(w, i, Holding)
    case ReadLock(i) => i in w.threads && w.threads[i].Validator? && w.threads[i].stage.Loaded?
    case CheckLease(i) => i in w.threads && w.threads[i].Validator? && w.threads[i].stage.Reading?
    case Act(i, _) => i in w.threads && w.threads[i].Validator? && w.threads[i].stage.Cleared?
    case ReadUnlock(i) => At(w, i, Leaving) && i in w.readers
    case Unlock(i) => i in w.threads && i !in w.readers
        && (At(w, i, Leaving) || (w.threads[i].Saver? && w.threads[i].holding))
    case SaveTask(i, _, _) => i in w.threads && w.threads[i].Saver? && w.threads[i].holding
    case AmendTask(i, _) => i in w.threads && w.threads[i].Saver? && w.threads[i].holding
    case CreateTask(_, _) => true
    case ChangeLease(_) => w.readers == {}
  }

  function WithStage(w: World, i: nat, stage: Stage): World
    requires i in w.threads && w.threads[i].Validator?
  {
    w.(threads := w.threads[i := w.threads[i].(stage := stage)])
  }

  /** The signal itself. Nothing is looked at again: the decision was made in earlier steps. */
  function Signalled(y: System, a: Authority, kind: Kind, seen: Snapshot): System {
    y.(log := y.log + [Delivery(a, kind, if a.taskId in y.tasks then y.tasks[a.taskId] else seen, y.leases)])
  }

  function Do(w: World, e: Event): World
    requires Can(w, e)
  {
    match e
    case BeginSignal(i, a, kind) => w.(threads := w.threads[i := Validator(a, kind, Entering)])
    case BeginSave(i, id) => w.(threads := w.threads[i := Saver(id, false)])
    case Lock(i) => w.(locks := w.locks[TaskOf(w.threads[i]) := i], threads := w.threads[i := Entered(w.threads[i])])
    case Load(i, fails) => WithStage(w, i, AfterLoad(w.system, w.threads[i].authority, fails))
    case ReadLock(i) => WithStage(w, i, Reading(w.threads[i].stage.seen)).(readers := w.readers + {i})
    case CheckLease(i) =>
      var t := w.threads[i];
      WithStage(w, i, if LeaseHeld(w.system.leases, t.authority) then Cleared(t.stage.seen) else Leaving)
    case Act(i, _) =>
      var t := w.threads[i];
      WithStage(w, i, Leaving).(system := Signalled(w.system, t.authority, t.kind, t.stage.seen))
    case ReadUnlock(i) => w.(readers := w.readers - {i})
    case Unlock(i) => w.(locks := w.locks - {TaskOf(w.threads[i])}, threads := w.threads - {i})
    case SaveTask(i, op, at) => w.(system := Signals.Next(w.system, Save(w.threads[i].id, op, at)))
    case AmendTask(i, n) => w.(system := Signals.Next(w.system, Amend(w.threads[i].id, n)))
    case CreateTask(id, s) => w.(system := Signals.Next(w.system, Create(id, s)))
    case ChangeLease(op) => w.(system := Signals.Next(w.system, Lease(op)))
  }

  function Next(w: World, e: Event): World {
    if Can(w, e) then Do(w, e) else w
  }

  // ---- what the locks keep ----

  /** What a validator has learnt is still so. */
  predicate Informed(w: World, i: nat, a: Authority, stage: Stage) {
    && ValidAuthority(a)
    && (stage.Loaded? || stage.Reading? || stage.Cleared? ==>
          a.taskId in w.system.tasks && w.system.tasks[a.taskId] == stage.seen && Matches(stage.seen, a))
    && (a.generation.Some? && (stage.Reading? || stage.Cleared?) ==> i in w.readers)
    && (stage.Cleared? ==> LeaseHeld(w.system.leases, a))
  }

  predicate ThreadOk(w: World, i: nat)
    requires i in w.threads
  {
    var t := w.threads[i];
    && (Holds(t) ==> TaskOf(t) in w.locks && w.locks[TaskOf(t)] == i)
    && (t.Validator? ==> Informed(w, i, t.authority, t.stage))
  }

  ghost predicate LocksOk(w: World) {
    forall i :: i in w.threads ==> ThreadOk(w, i)
  }

  /** A change of one task leaves alone what holders of other tasks' mutexes know. */
  lemma OthersInformed(w: World, n: World, id: TaskId)
    requires LocksOk(w) && n.threads == w.threads && n.locks == w.locks && n.readers == w.readers
    requires n.system.leases == w.system.leases
    requires forall other :: other in w.system.tasks && other != id ==>
               other in n.system.tasks && n.system.tasks[other] == w.system.tasks[other]
    requires id in w.locks && w.locks[id] in w.threads && w.threads[w.locks[id]].Saver?
    ensures LocksOk(n)
  {
    forall i | i in n.threads ensures ThreadOk(n, i) {
      assert ThreadOk(w, i);
    }
  }

  lemma ChangeTaskOk(w: World, e: Event)
    requires LocksOk(w) && Can(w, e) && (e.SaveTask? || e.AmendTask?)
    ensures LocksOk(Do(w, e))
  {
    assert ThreadOk(w, e.i);
    OthersInformed(w, Do(w, e), w.threads[e.i].id);
  }

  lemma CreateTaskOk(w: World, id: TaskId, s: Snapshot)
    requires LocksOk(w)
    ensures LocksOk(Do(w, CreateTask(id, s)))
  {
    var n := Do(w, CreateTask(id, s));
    forall i | i in n.threads ensures ThreadOk(n, i) {
      assert ThreadOk(w, i);
    }
  }

  lemma ChangeLeaseOk(w: World, op: Leases.Op)
    requires LocksOk(w) && w.readers == {}
    ensures LocksOk(Do(w, ChangeLease(op)))
  {
    var n := Do(w, ChangeLease(op));
    forall i | i in n.threads ensures ThreadOk(n, i) {
      assert ThreadOk(w, i);
    }
  }

  /** A new thread, or one that gets its mutex. */
  lemma EnterOk(w: World, e: Event)
    requires LocksOk(w) && Can(w, e) && (e.BeginSignal? || e.BeginSave? || e.Lock?)
    ensures LocksOk(Do(w, e))
  {
    var n := Do(w, e);
    forall i | i in n.threads ensures ThreadOk(n, i) {
      assert i in w.threads ==> ThreadOk(w, i);
    }
  }

  /** A validator's own step, which touches neither store nor leases. */
  lemma OwnStepOk(w: World, e: Event)
    requires LocksOk(w) && Can(w, e) && (e.Load? || e.ReadLock? || e.CheckLease?)
    ensures LocksOk(Do(w, e))
  {
    var n := Do(w, e);
    forall i | i in n.threads ensures ThreadOk(n, i) {
      assert ThreadOk(w, i);
    }
  }

  lemma ReadUnlockOk(w: World, i: nat)
    requires LocksOk(w) && Can(w, ReadUnlock(i))
    ensures LocksOk(Do(w, ReadUnlock(i)))
  {
    var n := Do(w, ReadUnlock(i));
    forall j | j in n.threads ensures ThreadOk(n, j) {
      assert ThreadOk(w, j);
    }
  }

  lemma ActOk(w: World, i: nat, fails: bool)
    requires LocksOk(w) && Can(w, Act(i, fails))
    ensures LocksOk(Do(w, Act(i, fails)))
  {
    var n := Do(w, Act(i, fails));
    forall j | j in n.threads ensures ThreadOk(n, j) {
      assert ThreadOk(w, j);
    }
  }

  lemma UnlockOk(w: World, i: nat)
    requires LocksOk(w) && Can(w, Unlock(i))
    ensures LocksOk(Do(w, Unlock(i)))
  {
    var n := Do(w, Unlock(i));
    assert ThreadOk(w, i);
    forall j | j in n.threads ensures ThreadOk(n, j) {
      assert ThreadOk(w, j);
    }
  }

  lemma NextLocksOk(w: World, e: Event)
    requires LocksOk(w)
    ensures LocksOk(Next(w, e))
  {
    if Can(w, e) {
      match e
      case SaveTask(_, _, _) => ChangeTaskOk(w, e);
      case AmendTask(_, _) => ChangeTaskOk(w, e);
      case CreateTask(id, s) => CreateTaskOk(w, id, s);
      case ChangeLease(op) => ChangeLeaseOk(w, op);
      case Act(i, fails) => ActOk(w, i, fails);
      case Unlock(i) => UnlockOk(w, i);
      case ReadUnlock(i) => ReadUnlockOk(w, i);
      case Load(_, _) => OwnStepOk(w, e);
      case ReadLock(_) => OwnStepOk(w, e);
      case CheckLease(_) => OwnStepOk(w, e);
      case _ => EnterOk(w, e);
    }
  }

  // ---- the steps come to the atomic validator ----

  /** The step of the atomic system a step here comes to; none for those that change nothing there. */
  function Abstract(w: World, e: Event): Option<Signals.Step> {
    if !Can(w, e) then None
    else
      match e
      case Act(i, fails) => Some(Signal(w.threads[i].authority, w.threads[i].kind, false, fails))
      case SaveTask(i, op, at) => Some(Save(w.threads[i].id, op, at))
      case AmendTask(i, n) => Some(Amend(w.threads[i].id, n))
      case CreateTask(id, s) => Some(Create(id, s))
      case ChangeLease(op) => Some(Lease(op))
      case _ => None
  }

  /** At the moment of the signal the atomic validator would pass it, on the store and leases of that
      very moment; every other step changes the system as the atomic one does, or not at all. */
  lemma StepRefines(w: World, e: Event)
    requires LocksOk(w)
    ensures Next(w, e).system == if Abstract(w, e).None? then w.system else Signals.Next(w.system, Abstract(w, e).value)
    ensures Can(w, e) && e.Act? ==>
              Validate(w.system, w.threads[e.i].authority, w.threads[e.i].kind, false, e.fails).1 == Executed(e.fails)
  {
    if Can(w, e) && e.Act? {
      assert ThreadOk(w, e.i);
    }
  }

  function Run(w: World, events: seq<Event>): World
    decreases |events|
  {
    if events == [] then w else Run(Next(w, events[0]), events[1..])
  }

  function AbstractRun(w: World, events: seq<Event>): seq<Signals.Step>
    decreases |events|
  {
    if events == [] then []
    else
      var rest := AbstractRun(Next(w, events[0]), events[1..]);
      if Abstract(w, events[0]).None? then rest else [Abstract(w, events[0]).value] + rest
  }

  lemma {:induction false} RunRefines(w: World, events: seq<Event>)
    requires LocksOk(w)
    ensures LocksOk(Run(w, events)) && Run(w, events).system == Signals.Run(w.system, AbstractRun(w, events))
    decreases |events|
  {
    if events != [] {
      NextLocksOk(w, events[0]);
      StepRefines(w, events[0]);
      RunRefines(Next(w, events[0]), events[1..]);
      var rest := AbstractRun(Next(w, events[0]), events[1..]);
      if Abstract(w, events[0]).Some? {
        assert ([Abstract(w, events[0]).value] + rest)[1..] == rest;
      }
    }
  }

  const QUIET: World := World.World(EMPTY, map[], {}, map[])

  /** Over every interleaving: when a signal goes out, the store and the leases as they are at that moment
      hold the expected state, that process, and the lease if one was named. */
  lemma EverySignalLegitimate(events: seq<Event>)
    ensures AllLegitimate(Run(QUIET, events).system)
  {
    RunRefines(QUIET, events);
    Signals.EverySignalLegitimate(EMPTY, AbstractRun(QUIET, events));
  }

  // ---- and the atomic validator to the steps ----

  /** A validator's whole way; steps it has no call for are passed over. */
  function Pass(i: nat, a: Authority, kind: Kind, loadFails: bool, fails: bool): seq<Event> {
    [BeginSignal(i, a, kind), Lock(i), Load(i, loadFails)] + Later(i, fails)
  }

  function Later(i: nat, fails: bool): seq<Event> {
    [ReadLock(i), CheckLease(i)] + Last(i, fails)
  }

  function Last(i: nat, fails: bool): seq<Event> {
    [Act(i, fails), ReadUnlock(i), Unlock(i)]
  }

  /** A validator at a stage past the task mutex. */
  function Inside(w: World, i: nat, a: Authority, kind: Kind, stage: Stage): World {
    w.(threads := w.threads[i := Validator(a, kind, stage)], locks := w.locks[a.taskId := i])
  }

  predicate Outside(w: World, i: nat, a: Authority) {
    i !in w.threads && i !in w.readers && a.taskId !in w.locks
  }

  lemma PassEnters(w: World, i: nat, a: Authority, kind: Kind, loadFails: bool)
    requires Outside(w, i, a) && ValidAuthority(a)
    ensures Next(Next(Next(w, BeginSignal(i, a, kind)), Lock(i)), Load(i, loadFails)) ==
            Inside(w, i, a, kind, AfterLoad(w.system, a, loadFails))
  {
    assert Next(Next(w, BeginSignal(i, a, kind)), Lock(i)) == Inside(w, i, a, kind, Holding);
    assert Next(Inside(w, i, a, kind, Holding), Load(i, loadFails))
        == Inside(w, i, a, kind, AfterLoad(w.system, a, loadFails));
  }

  lemma PassLeases(w: World, i: nat, a: Authority, kind: Kind, seen: Snapshot)
    requires Outside(w, i, a)
    ensures Next(Next(Inside(w, i, a, kind, Loaded(seen)), ReadLock(i)), CheckLease(i)) ==
            Inside(w, i, a, kind, if LeaseHeld(w.system.leases, a) then Cleared(seen) else Leaving)
              .(readers := w.readers + {i})
  {
  }

  lemma PassLeaves(w: World, n: World, i: nat, a: Authority, kind: Kind)
    requires Outside(w, i, a) && n == Inside(w, i, a, kind, Leaving).(readers := n.readers, system := n.system)
    requires n.readers == w.readers || n.readers == w.readers + {i}
    ensures Next(Next(n, ReadUnlock(i)), Unlock(i)) == w.(system := n.system)
  {
    var m := Next(n, ReadUnlock(i));
    assert m == n.(readers := w.readers);
    assert m.locks - {a.taskId} == w.locks && m.threads - {i} == w.threads;
  }

  lemma RunTwo(w: World, a: Event, b: Event, rest: seq<Event>)
    ensures Run(w, [a, b] + rest) == Run(Next(Next(w, a), b), rest)
  {
    assert ([a, b] + rest)[1..] == [b] + rest && ([b] + rest)[1..] == rest;
  }

  lemma RunThree(w: World, a: Event, b: Event, c: Event, rest: seq<Event>)
    ensures Run(w, [a, b, c] + rest) == Run(Next(Next(Next(w, a), b), c), rest)
  {
    assert [a, b, c] + rest == [a, b] + ([c] + rest) && ([c] + rest)[1..] == rest;
    RunTwo(w, a, b, [c] + rest);
  }

  /** From the decision to act on: the signal goes out if it was cleared, and everything is given back. */
  lemma PassEnds(w: World, n: World, i: nat, a: Authority, kind: Kind, stage: Stage, fails: bool)
    requires Outside(w, i, a) && n == Inside(w, i, a, kind, stage).(readers := n.readers)
    requires n.readers == w.readers || n.readers == w.readers + {i}
    requires stage == Leaving || stage.Cleared?
    ensures Run(n, Last(i, fails)) ==
            w.(system := if stage == Leaving then w.system else Signalled(w.system, a, kind, stage.seen))
  {
    var m := Next(n, Act(i, fails));
    PassLeaves(w, m, i, a, kind);
    assert Last(i, fails) + [] == Last(i, fails);
    RunThree(n, Act(i, fails), ReadUnlock(i), Unlock(i), []);
  }

  lemma PassDecides(w: World, i: nat, a: Authority, kind: Kind, stage: Stage, fails: bool)
    requires Outside(w, i, a) && (stage == Leaving || stage.Loaded? || stage.Cleared?)
    ensures Run(Inside(w, i, a, kind, stage), Later(i, fails)) ==
            w.(system := if stage == Leaving || (stage.Loaded? && !LeaseHeld(w.system.leases, a)) then w.system
                         else Signalled(w.system, a, kind, stage.seen))
  {
    var n := Inside(w, i, a, kind, stage);
    RunTwo(n, ReadLock(i), CheckLease(i), Last(i, fails));
    if stage.Loaded? {
      PassLeases(w, i, a, kind, stage.seen);
      var held := LeaseHeld(w.system.leases, a);
      PassEnds(w, Next(Next(n, ReadLock(i)), CheckLease(i)), i, a, kind, if held then Cleared(stage.seen) else Leaving,
               fails);
    } else {
      PassEnds(w, n, i, a, kind, stage, fails);
    }
  }

  lemma {:induction false} NobodyThere(w: World, i: nat, events: seq<Event>)
    requires i !in w.threads
    requires forall k :: 0 <= k < |events| ==> events[k] in {Lock(i), Load(i, false), Load(i, true), ReadLock(i),
               CheckLease(i), Act(i, false), Act(i, true), ReadUnlock(i), Unlock(i)}
    ensures Run(w, events) == w
    decreases |events|
  {
    if events != [] {
      assert events[0] in {Lock(i), Load(i, false), Load(i, true), ReadLock(i), CheckLease(i), Act(i, false),
                           Act(i, true), ReadUnlock(i), Unlock(i)};
      NobodyThere(w, i, events[1..]);
    }
  }

  /** A validator that finds the task mutex free and is not interfered with does exactly what the atomic one
      does, signal included, and gives back mutex and read lock. */
  lemma PassIsAtomic(w: World, i: nat, a: Authority, kind: Kind, loadFails: bool, fails: bool)
    requires Outside(w, i, a)
    ensures Run(w, Pass(i, a, kind, loadFails, fails)) ==
            w.(system := Validate(w.system, a, kind, loadFails, fails).0)
  {
    if ValidAuthority(a) {
      PassEnters(w, i, a, kind, loadFails);
      RunThree(w, BeginSignal(i, a, kind), Lock(i), Load(i, loadFails), Later(i, fails));
      PassDecides(w, i, a, kind, AfterLoad(w.system, a, loadFails), fails);
    } else {
      var rest := [Lock(i), Load(i, loadFails)] + Later(i, fails);
      assert Pass(i, a, kind, loadFails, fails)[1..] == rest;
      NobodyThere(w, i, rest);
    }
  }

  /** And from the moment the task leaves the state or the lease ends, none goes out under that
      authority, validators already past their checks included. */
  lemma NoSignalAfterMovingOn(start: seq<Event>, a: Authority, during: seq<Event>, after: seq<Event>)
    requires ValidAuthority(a) && a.taskId in Run(QUIET, start).system.tasks
    requires Matches(Run(QUIET, start).system.tasks[a.taskId], a) && LeaseHeld(Run(QUIET, start).system.leases, a)
    ensures var m := Run(Run(QUIET, start), during);
            a.taskId in m.system.tasks
            && (m.system.tasks[a.taskId].state != a.expected || !LeaseHeld(m.system.leases, a) ==>
                  Under(Run(m, after).system.log, a) == Under(m.system.log, a))
  {
    var w := Run(QUIET, start);
    var m := Run(w, during);
    RunRefines(QUIET, start);
    RunRefines(w, during);
    RunRefines(m, after);
    Signals.NoSignalAfterMovingOn(AbstractRun(QUIET, start), a, AbstractRun(w, during), AbstractRun(m, after));
  }
}
