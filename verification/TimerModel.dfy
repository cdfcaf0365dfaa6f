/** The timeout watcher: generation-stamped timers with retry, disarming, re-arming and closing
    (internal/execution/timeout.go). */
module TimerModel {
  import opened TaskDomain

  const MAX_RETRIES: nat := 6

  /** A callback handed to the timer factory: waiting for its instant, fired and queueing for the mutex,
      running the enforcement, on its way out, out, or stopped before it fired. */
  datatype Phase = Waiting | Fired | Executing | Leaving | Ended | Stopped

  datatype Callback = Callback(task: TaskId, generation: nat, phase: Phase)

  /** `callback` is what this entry's cancel function would stop. */
  datatype Armed = Armed(callback: nat, generation: nat, retries: nat, executing: bool)

  /** `waits` is the wait group's count; `started` records the generation of every enforcement begun. */
  datatype Watcher = Watcher(timers: map<TaskId, Armed>, generation: nat, closed: bool, waits: int,
                             callbacks: seq<Callback>, started: seq<nat>)

  const IDLE: Watcher := Watcher(map[], 0, false, 0, [], [])

  function SetPhase(w: Watcher, k: nat, phase: Phase): Watcher
    requires k < |w.callbacks|
  {
    w.(callbacks := w.callbacks[k := w.callbacks[k].(phase := phase)])
  }

  /** Stopping succeeds only before the callback fires, and then settles the wait group in its stead. */
  function Cancelled(w: Watcher, k: nat): Watcher {
    if k < |w.callbacks| && w.callbacks[k].phase == Waiting then SetPhase(w, k, Stopped).(waits := w.waits - 1) else w
  }

  function Scheduled(w: Watcher, id: TaskId, generation: nat, retries: nat): Watcher {
    w.(waits := w.waits + 1,
       timers := w.timers[id := Armed(|w.callbacks|, generation, retries, false)],
       callbacks := w.callbacks + [Callback(id, generation, Waiting)])
  }

  function Arm(w: Watcher, id: TaskId): Watcher {
    if w.closed then w
    else
      var c := if id in w.timers then Cancelled(w, w.timers[id].callback) else w;
      Scheduled(c.(generation := c.generation + 1), id, c.generation + 1, 0)
  }

  function Disarm(w: Watcher, id: TaskId): Watcher {
    if id !in w.timers then w
    else
      var c := Cancelled(w, w.timers[id].callback);
      c.(timers := c.timers - {id})
  }

  /** Closing stops the timers one by one, in whatever order the map is walked. */
  function DisarmAll(w: Watcher, order: seq<TaskId>): Watcher
    decreases |order|
  {
    if order == [] then w else DisarmAll(Disarm(w, order[0]), order[1..])
  }

  function Close(w: Watcher, order: seq<TaskId>): Watcher {
    if w.closed then w else DisarmAll(w.(closed := true), order)
  }

  predicate Awaited(w: Watcher, k: nat)
    requires k < |w.callbacks|
  {
    var c := w.callbacks[k];
    c.task in w.timers && w.timers[c.task].generation == c.generation
  }

  /** A fired callback gets the mutex: it starts an enforcement or leaves. */
  function Begin(w: Watcher, k: nat): Watcher
    requires k < |w.callbacks|
  {
    var c := w.callbacks[k];
    if !Awaited(w, k) || w.timers[c.task].executing || w.closed then SetPhase(w, k, Leaving)
    else SetPhase(w, k, Executing).(timers := w.timers[c.task := w.timers[c.task].(executing := true)],
          started := w.started + [c.generation])
  }

  /** The enforcement is over; a retryable failure schedules another. */
  function Finish(w: Watcher, k: nat, retryable: bool): Watcher
    requires k < |w.callbacks|
  {
    var c := w.callbacks[k];
    var out := SetPhase(w, k, Leaving);
    if !Awaited(w, k) then out
    else if w.closed || !retryable || w.timers[c.task].retries >= MAX_RETRIES then out.(timers := w.timers - {c.task})
    else Scheduled(out, c.task, c.generation, w.timers[c.task].retries + 1)
  }

  datatype Step =
    | ArmStep(id: TaskId)
    | DisarmStep(id: TaskId)
    | CloseStep(order: seq<TaskId>)
    | FireStep(k: nat)
    | BeginStep(k: nat)
    | FinishStep(k: nat, retryable: bool)
    | LeaveStep(k: nat)

  predicate In(w: Watcher, k: nat, phase: Phase) {
    k < |w.callbacks| && w.callbacks[k].phase == phase
  }

  ghost predicate Covers(w: Watcher, order: seq<TaskId>) {
    forall id :: id in w.timers ==> id in order
  }

  ghost function Next(w: Watcher, e: Step): Watcher {
    match e
    case ArmStep(id) => Arm(w, id)
    case DisarmStep(id) => Disarm(w, id)
    case CloseStep(order) => if Covers(w, order) then Close(w, order) else w
    case FireStep(k) => if In(w, k, Waiting) then SetPhase(w, k, Fired) else w
    case BeginStep(k) => if In(w, k, Fired) then Begin(w, k) else w
    case FinishStep(k, retryable) => if In(w, k, Executing) then Finish(w, k, retryable) else w
    case LeaveStep(k) => if In(w, k, Leaving) then SetPhase(w, k, Ended).(waits := w.waits - 1) else w
  }

  // ---- what always holds ----

  predicate Over(p: Phase) {
    p == Ended || p == Stopped
  }

  predicate Active(p: Phase) {
    p == Waiting || p == Fired || p == Executing
  }

  /** Callbacks that still owe the wait group a Done. */
  function Unfinished(callbacks: seq<Callback>): nat {
    if callbacks == [] then 0
    else Unfinished(callbacks[..|callbacks| - 1]) + if Over(callbacks[|callbacks| - 1].phase) then 0 else 1
  }

  function Count(started: seq<nat>, generation: nat): nat {
    if started == [] then 0
    else Count(started[..|started| - 1], generation) + if started[|started| - 1] == generation then 1 else 0
  }

  ghost predicate Live(w: Watcher, generation: nat) {
    exists id :: id in w.timers && w.timers[id].generation == generation
  }

  /** The entry of an armed task is backed by the one callback that can still act for it. */
  predicate EntryOk(w: Watcher, id: TaskId)
    requires id in w.timers
  {
    var a := w.timers[id];
    && a.callback < |w.callbacks| && w.callbacks[a.callback].task == id
        && w.callbacks[a.callback].generation == a.generation
    && a.generation <= w.generation && a.retries <= MAX_RETRIES
    && (if a.executing then w.callbacks[a.callback].phase == Executing
        else w.callbacks[a.callback].phase == Waiting || w.callbacks[a.callback].phase == Fired)
    && Count(w.started, a.generation) == a.retries + if a.executing then 1 else 0
  }

  /** A generation belongs to one task, and only one of its callbacks can be active. */
  predicate PairOk(c: Callback, d: Callback) {
    c.generation == d.generation ==> c.task == d.task && !(Active(c.phase) && Active(d.phase))
  }

  ghost predicate EntriesOk(w: Watcher) {
    forall id :: id in w.timers ==> EntryOk(w, id)
  }

  ghost predicate PairsOk(callbacks: seq<Callback>) {
    forall i, j :: 0 <= i < j < |callbacks| ==> PairOk(callbacks[i], callbacks[j])
  }

  ghost predicate GenerationsOk(callbacks: seq<Callback>, latest: nat) {
    forall i :: 0 <= i < |callbacks| ==> 1 <= callbacks[i].generation <= latest
  }

  ghost predicate StartsOk(started: seq<nat>, latest: nat) {
    (forall i :: 0 <= i < |started| ==> started[i] <= latest) && forall g :: Count(started, g) <= MAX_RETRIES + 1
  }

  ghost predicate Steady(w: Watcher) {
    && EntriesOk(w) && PairsOk(w.callbacks) && GenerationsOk(w.callbacks, w.generation)
        && StartsOk(w.started, w.generation)
    && w.waits == Unfinished(w.callbacks)
    && (w.closed ==> w.timers == map[])
  }

  lemma {:induction false} UnfinishedUpdate(callbacks: seq<Callback>, k: nat, c: Callback)
    requires k < |callbacks|
    ensures Unfinished(callbacks[k := c]) ==
              Unfinished(callbacks) - (if Over(callbacks[k].phase) then 0 else 1) + if Over(c.phase) then 0 else 1
  {
    var n := |callbacks| - 1;
    var updated := callbacks[k := c];
    if k == n {
      assert updated[..n] == callbacks[..n];
    } else {
      assert updated[..n] == callbacks[..n][k := c];
      UnfinishedUpdate(callbacks[..n], k, c);
    }
  }

  lemma UnfinishedAppend(callbacks: seq<Callback>, c: Callback)
    ensures Unfinished(callbacks + [c]) == Unfinished(callbacks) + if Over(c.phase) then 0 else 1
  {
    assert (callbacks + [c])[..|callbacks|] == callbacks;
  }

  lemma CountAppend(started: seq<nat>, g: nat, h: nat)
    ensures Count(started + [g], h) == Count(started, h) + if g == h then 1 else 0
  {
    assert (started + [g])[..|started|] == started;
  }

  lemma {:induction false} CountFresh(started: seq<nat>, g: nat)
    requires forall i :: 0 <= i < |started| ==> started[i] < g
    ensures Count(started, g) == 0
  {
    if started != [] {
      CountFresh(started[..|started| - 1], g);
    }
  }

  // ---- every step keeps it ----

  /** Moving one callback on, unless some entry stands on it. */
  lemma SetPhaseOk(w: Watcher, k: nat, phase: Phase)
    requires Steady(w) && k < |w.callbacks|
    requires Active(phase) ==> Active(w.callbacks[k].phase)
    requires forall id :: id in w.timers && w.timers[id].callback == k ==> !w.timers[id].executing && phase == Fired
    ensures var waits := w.waits - (if Over(w.callbacks[k].phase) then 0 else 1) + if Over(phase) then 0 else 1;
            Steady(SetPhase(w, k, phase).(waits := waits))
  {
    UnfinishedUpdate(w.callbacks, k, w.callbacks[k].(phase := phase));
  }

  lemma DropOk(w: Watcher, id: TaskId)
    requires Steady(w)
    ensures Steady(w.(timers := w.timers - {id}))
  {
  }

  /** No two entries share a generation. */
  lemma GenerationsDiffer(w: Watcher, id: TaskId, other: TaskId)
    requires Steady(w) && id in w.timers && other in w.timers && id != other
    ensures w.timers[id].generation != w.timers[other].generation && w.timers[id].callback != w.timers[other].callback
  {
    var i, j := w.timers[id].callback, w.timers[other].callback;
    assert EntryOk(w, id) && EntryOk(w, other);
    if i < j {
      assert PairOk(w.callbacks[i], w.callbacks[j]);
    } else if j < i {
      assert PairOk(w.callbacks[j], w.callbacks[i]);
    }
  }

  lemma DisarmOk(w: Watcher, id: TaskId)
    requires Steady(w)
    ensures Steady(Disarm(w, id)) && Disarm(w, id).timers == w.timers - {id}
  {
    DropOk(w, id);
    if id in w.timers && In(w, w.timers[id].callback, Waiting) {
      DisarmWaitingOk(w, id);
    }
  }

  lemma DisarmWaitingOk(w: Watcher, id: TaskId)
    requires Steady(w) && Steady(w.(timers := w.timers - {id})) && id in w.timers
    requires In(w, w.timers[id].callback, Waiting)
    ensures Steady(Disarm(w, id))
  {
    var k := w.timers[id].callback;
    forall other | other in w.timers && other != id ensures w.timers[other].callback != k {
      GenerationsDiffer(w, id, other);
    }
    SetPhaseOk(w.(timers := w.timers - {id}), k, Stopped);
  }

  lemma ScheduledPairs(w: Watcher, id: TaskId, generation: nat)
    requires Steady(w)
    requires forall i :: 0 <= i < |w.callbacks| && w.callbacks[i].generation == generation ==>
               w.callbacks[i].task == id && !Active(w.callbacks[i].phase)
    ensures PairsOk(w.callbacks + [Callback(id, generation, Waiting)])
  {
    var callbacks := w.callbacks + [Callback(id, generation, Waiting)];
    forall i, j | 0 <= i < j < |callbacks| ensures PairOk(callbacks[i], callbacks[j]) {
      if j < |w.callbacks| {
        assert PairOk(w.callbacks[i], w.callbacks[j]);
      } else {
        assert callbacks[i] == w.callbacks[i];
      }
    }
  }

  lemma ScheduledGenerations(w: Watcher, id: TaskId, generation: nat)
    requires Steady(w) && 1 <= generation <= w.generation
    ensures GenerationsOk(w.callbacks + [Callback(id, generation, Waiting)], w.generation)
  {
    var callbacks := w.callbacks + [Callback(id, generation, Waiting)];
    forall i | 0 <= i < |callbacks| ensures 1 <= callbacks[i].generation <= w.generation {
      if i < |w.callbacks| {
        assert callbacks[i] == w.callbacks[i];
      }
    }
  }

  lemma ScheduledEntries(w: Watcher, id: TaskId, generation: nat, retries: nat)
    requires Steady(w) && 1 <= generation <= w.generation && retries <= MAX_RETRIES
    requires Count(w.started, generation) == retries
    ensures EntriesOk(Scheduled(w, id, generation, retries))
  {
    var n := Scheduled(w, id, generation, retries);
    forall other | other in n.timers ensures EntryOk(n, other) {
      if other != id {
        assert EntryOk(w, other);
      }
    }
  }

  /** A new callback for an idle task under a generation whose earlier callbacks are all spent. */
  lemma ScheduledOk(w: Watcher, id: TaskId, generation: nat, retries: nat)
    requires Steady(w) && !w.closed && 1 <= generation <= w.generation
    requires retries <= MAX_RETRIES && Count(w.started, generation) == retries
    requires forall i :: 0 <= i < |w.callbacks| && w.callbacks[i].generation == generation ==>
               w.callbacks[i].task == id && !Active(w.callbacks[i].phase)
    ensures Steady(Scheduled(w, id, generation, retries))
  {
    UnfinishedAppend(w.callbacks, Callback(id, generation, Waiting));
    ScheduledPairs(w, id, generation);
    ScheduledEntries(w, id, generation, retries);
    ScheduledGenerations(w, id, generation);
  }

  lemma NewGenerationOk(w: Watcher)
    requires Steady(w)
    ensures Steady(w.(generation := w.generation + 1)) && Count(w.started, w.generation + 1) == 0
  {
    CountFresh(w.started, w.generation + 1);
  }

  lemma ScheduledReplaces(w: Watcher, id: TaskId, generation: nat, retries: nat)
    ensures Scheduled(w.(timers := w.timers - {id}), id, generation, retries) == Scheduled(w, id, generation, retries)
  {
    var a := Armed(|w.callbacks|, generation, retries, false);
    assert (w.timers - {id})[id := a] == w.timers[id := a];
  }

  /** Arming is disarming followed by scheduling under a new generation. */
  lemma ArmIsReschedule(w: Watcher, id: TaskId)
    requires !w.closed
    ensures var d := Disarm(w, id); Arm(w, id) == Scheduled(d.(generation := d.generation + 1), id, d.generation + 1, 0)
  {
    if id in w.timers {
      var c := Cancelled(w, w.timers[id].callback);
      ScheduledReplaces(c.(generation := c.generation + 1), id, c.generation + 1, 0);
    }
  }

  lemma ArmOk(w: Watcher, id: TaskId)
    requires Steady(w)
    ensures Steady(Arm(w, id))
  {
    if !w.closed {
      ArmIsReschedule(w, id);
      DisarmOk(w, id);
      var d := Disarm(w, id);
      NewGenerationOk(d);
      ScheduledOk(d.(generation := d.generation + 1), id, d.generation + 1, 0);
    }
  }

  lemma {:induction false} DisarmAllOk(w: Watcher, order: seq<TaskId>)
    requires Steady(w)
    ensures Steady(DisarmAll(w, order))
    ensures (forall id :: id in DisarmAll(w, order).timers ==> id in w.timers && id !in order)
    ensures DisarmAll(w.(closed := true), order) == DisarmAll(w, order).(closed := true)
    decreases |order|
  {
    if order != [] {
      DisarmOk(w, order[0]);
      DisarmAllOk(Disarm(w, order[0]), order[1..]);
      assert Disarm(w.(closed := true), order[0]) == Disarm(w, order[0]).(closed := true);
    }
  }

  lemma CloseOk(w: Watcher, order: seq<TaskId>)
    requires Steady(w) && Covers(w, order)
    ensures Steady(Close(w, order)) && Close(w, order).closed && Close(w, order).timers == map[]
  {
    if !w.closed {
      DisarmAllOk(w, order);
    }
  }

  /** The entry awaiting an active callback stands on that very callback. */
  lemma AwaitedStands(w: Watcher, k: nat)
    requires Steady(w) && k < |w.callbacks| && Awaited(w, k) && Active(w.callbacks[k].phase)
    ensures w.timers[w.callbacks[k].task].callback == k
  {
    var a := w.timers[w.callbacks[k].task];
    assert EntryOk(w, w.callbacks[k].task);
    assert a.callback < k ==> PairOk(w.callbacks[a.callback], w.callbacks[k]);
    assert k < a.callback ==> PairOk(w.callbacks[k], w.callbacks[a.callback]);
  }

  lemma BeginOk(w: Watcher, k: nat)
    requires Steady(w) && In(w, k, Fired)
    ensures Steady(Begin(w, k))
  {
    var c := w.callbacks[k];
    UnfinishedUpdate(w.callbacks, k, c.(phase := Leaving));
    UnfinishedUpdate(w.callbacks, k, c.(phase := Executing));
    if Awaited(w, k) {
      AwaitedStands(w, k);
      BeginEntries(w, k);
      forall g ensures Count(Begin(w, k).started, g) <= MAX_RETRIES + 1 {
        CountAppend(w.started, c.generation, g);
      }
    } else {
      LeaveUnawaitedOk(w, k);
    }
  }

  lemma BeginEntries(w: Watcher, k: nat)
    requires Steady(w) && In(w, k, Fired) && Awaited(w, k) && w.timers[w.callbacks[k].task].callback == k
    ensures !w.closed && !w.timers[w.callbacks[k].task].executing
    ensures forall id :: id in Begin(w, k).timers ==> EntryOk(Begin(w, k), id)
  {
    var c := w.callbacks[k];
    var n := Begin(w, k);
    assert EntryOk(w, c.task);
    forall id | id in n.timers ensures EntryOk(n, id) {
      CountAppend(w.started, c.generation, w.timers[id].generation);
      if id != c.task {
        GenerationsDiffer(w, id, c.task);
      }
    }
  }

  /** The way out of an awaited enforcement: entry and callback go together. */
  lemma LeaveAwaitedOk(w: Watcher, k: nat)
    requires Steady(w) && In(w, k, Executing) && Awaited(w, k)
    ensures Steady(SetPhase(w, k, Leaving).(timers := w.timers - {w.callbacks[k].task}))
    ensures Count(w.started, w.callbacks[k].generation) == w.timers[w.callbacks[k].task].retries + 1
  {
    var c := w.callbacks[k];
    AwaitedStands(w, k);
    assert EntryOk(w, c.task);
    DropOk(w, c.task);
    SetPhaseOk(w.(timers := w.timers - {c.task}), k, Leaving);
  }

  lemma RetryOk(w: Watcher, k: nat)
    requires Steady(w) && In(w, k, Executing) && Awaited(w, k) && !w.closed
    requires w.timers[w.callbacks[k].task].retries < MAX_RETRIES
    ensures Steady(Scheduled(SetPhase(w, k, Leaving), w.callbacks[k].task, w.callbacks[k].generation,
                  w.timers[w.callbacks[k].task].retries + 1))
  {
    var c := w.callbacks[k];
    var retries := w.timers[c.task].retries + 1;
    LeaveAwaitedOk(w, k);
    SpentGeneration(w, k);
    var out := SetPhase(w, k, Leaving).(timers := w.timers - {c.task});
    ScheduledOk(out, c.task, c.generation, retries);
    ScheduledReplaces(SetPhase(w, k, Leaving), c.task, c.generation, retries);
  }

  lemma LeaveUnawaitedOk(w: Watcher, k: nat)
    requires Steady(w) && k < |w.callbacks| && Active(w.callbacks[k].phase) && !Awaited(w, k)
    ensures Steady(SetPhase(w, k, Leaving))
  {
    forall id | id in w.timers ensures w.timers[id].callback != k {
      assert EntryOk(w, id);
    }
    SetPhaseOk(w, k, Leaving);
  }

  lemma FinishLastOk(w: Watcher, k: nat, retryable: bool)
    requires Steady(w) && In(w, k, Executing) && Awaited(w, k)
    requires w.closed || !retryable || w.timers[w.callbacks[k].task].retries >= MAX_RETRIES
    ensures Steady(Finish(w, k, retryable))
  {
    LeaveAwaitedOk(w, k);
  }

  lemma FinishRetryOk(w: Watcher, k: nat)
    requires Steady(w) && In(w, k, Executing) && Awaited(w, k)
    requires !w.closed && w.timers[w.callbacks[k].task].retries < MAX_RETRIES
    ensures Steady(Finish(w, k, true))
  {
    RetryOk(w, k);
  }

  lemma FinishOk(w: Watcher, k: nat, retryable: bool)
    requires Steady(w) && In(w, k, Executing)
    ensures Steady(Finish(w, k, retryable))
  {
    if !Awaited(w, k) {
      LeaveUnawaitedOk(w, k);
    } else if w.closed || !retryable || w.timers[w.callbacks[k].task].retries >= MAX_RETRIES {
      FinishLastOk(w, k, retryable);
    } else {
      FinishRetryOk(w, k);
    }
  }

  /** When the active callback of a generation leaves, none is left. */
  lemma SpentGeneration(w: Watcher, k: nat)
    requires Steady(w) && In(w, k, Executing)
    ensures var n := SetPhase(w, k, Leaving);
            forall i :: 0 <= i < |n.callbacks| && n.callbacks[i].generation == w.callbacks[k].generation ==>
              n.callbacks[i].task == w.callbacks[k].task && !Active(n.callbacks[i].phase)
  {
    var n := SetPhase(w, k, Leaving);
    forall i | 0 <= i < |n.callbacks| && n.callbacks[i].generation == w.callbacks[k].generation
      ensures n.callbacks[i].task == w.callbacks[k].task && !Active(n.callbacks[i].phase)
    {
      if i < k {
        assert PairOk(w.callbacks[i], w.callbacks[k]);
      } else if k < i {
        assert PairOk(w.callbacks[k], w.callbacks[i]);
      }
    }
  }

  lemma NextOk(w: Watcher, e: Step)
    requires Steady(w)
    ensures Steady(Next(w, e))
  {
    match e
    case ArmStep(id) => ArmOk(w, id);
    case DisarmStep(id) => DisarmOk(w, id);
    case CloseStep(order) => if Covers(w, order) { CloseOk(w, order); }
    case FireStep(k) => if In(w, k, Waiting) { SetPhaseOk(w, k, Fired); }
    case BeginStep(k) => if In(w, k, Fired) { BeginOk(w, k); }
    case FinishStep(k, retryable) => if In(w, k, Executing) { FinishOk(w, k, retryable); }
    case LeaveStep(k) => if In(w, k, Leaving) { SetPhaseOk(w, k, Ended); }
  }

  // ---- whole runs ----

  ghost function Run(w: Watcher, steps: seq<Step>): Watcher
    decreases |steps|
  {
    if steps == [] then w else Run(Next(w, steps[0]), steps[1..])
  }

  lemma {:induction false} RunOk(w: Watcher, steps: seq<Step>)
    requires Steady(w)
    ensures Steady(Run(w, steps))
    decreases |steps|
  {
    if steps != [] {
      NextOk(w, steps[0]);
      RunOk(Next(w, steps[0]), steps[1..]);
    }
  }

  /** Over every run, for every generation: one enforcement at a time, seven in all, and the wait group
      counts exactly the callbacks that are neither stopped nor ended. */
  lemma EveryRun(steps: seq<Step>)
    ensures var w := Run(IDLE, steps);
            && (forall i, j :: 0 <= i < j < |w.callbacks| && In(w, i, Executing) && In(w, j, Executing) ==>
                  w.callbacks[i].generation != w.callbacks[j].generation)
            && (forall g :: Count(w.started, g) <= 7)
            && w.waits == Unfinished(w.callbacks)
  {
    RunOk(IDLE, steps);
    var w := Run(IDLE, steps);
    forall i, j | 0 <= i < j < |w.callbacks| && w.callbacks[i].phase == Executing && w.callbacks[j].phase == Executing
      ensures w.callbacks[i].generation != w.callbacks[j].generation
    {
      assert PairOk(w.callbacks[i], w.callbacks[j]);
    }
  }

  /** A generation given out and no longer in the table stays out of it and starts nothing. */
  ghost predicate Retired(w: Watcher, g: nat) {
    g <= w.generation && !Live(w, g)
  }

  lemma {:induction false} DisarmAllShrinks(w: Watcher, order: seq<TaskId>)
    ensures DisarmAll(w, order).generation == w.generation && DisarmAll(w, order).started == w.started
    ensures forall id :: id in DisarmAll(w, order).timers ==>
              id in w.timers && DisarmAll(w, order).timers[id] == w.timers[id]
    decreases |order|
  {
    if order != [] {
      DisarmAllShrinks(Disarm(w, order[0]), order[1..]);
    }
  }

  /** Entries that were not there before carry a new generation, or the one of the entry they replace. */
  lemma EntriesStep(w: Watcher, e: Step, id: TaskId)
    requires id in Next(w, e).timers
    ensures Next(w, e).timers[id].generation > w.generation
              || (id in w.timers && Next(w, e).timers[id].generation == w.timers[id].generation)
  {
    if e.CloseStep? {
      DisarmAllShrinks(w.(closed := true), e.order);
    }
  }

  lemma StartsStep(w: Watcher, e: Step, g: nat)
    ensures Next(w, e).generation >= w.generation
    ensures !Live(w, g) ==> Count(Next(w, e).started, g) == Count(w.started, g)
  {
    if e.CloseStep? {
      DisarmAllShrinks(w.(closed := true), e.order);
    }
    if e.BeginStep? && In(w, e.k, Fired) {
      CountAppend(w.started, w.callbacks[e.k].generation, g);
    }
  }

  lemma RetiredStep(w: Watcher, e: Step, g: nat)
    requires Steady(w) && Retired(w, g)
    ensures Retired(Next(w, e), g) && Count(Next(w, e).started, g) == Count(w.started, g)
  {
    StartsStep(w, e, g);
    forall id | id in Next(w, e).timers ensures Next(w, e).timers[id].generation != g {
      EntriesStep(w, e, id);
    }
  }

  /** Nothing starts under a generation once it is superseded, disarmed, finished or closed. */
  lemma {:induction false} RetiredForGood(w: Watcher, g: nat, steps: seq<Step>)
    requires Steady(w) && Retired(w, g)
    ensures Retired(Run(w, steps), g) && Count(Run(w, steps).started, g) == Count(w.started, g)
    decreases |steps|
  {
    if steps != [] {
      NextOk(w, steps[0]);
      RetiredStep(w, steps[0], g);
      RetiredForGood(Next(w, steps[0]), g, steps[1..]);
    }
  }

  /** Which steps retire a generation: arming its task again, disarming it, closing. */
  lemma Retires(w: Watcher, id: TaskId, order: seq<TaskId>)
    requires Steady(w) && id in w.timers && Covers(w, order)
    ensures var g := w.timers[id].generation;
            Retired(Arm(w, id), g) && Retired(Disarm(w, id), g) && Retired(Close(w, order), g)
  {
    var g := w.timers[id].generation;
    assert EntryOk(w, id);
    forall other | other in w.timers && other != id ensures w.timers[other].generation != g {
      GenerationsDiffer(w, id, other);
    }
    CloseOk(w, order);
    DisarmAllShrinks(w.(closed := true), order);
  }

  lemma {:induction false} NothingUnfinished(callbacks: seq<Callback>)
    requires Unfinished(callbacks) == 0
    ensures forall i :: 0 <= i < |callbacks| ==> Over(callbacks[i].phase)
  {
    if callbacks != [] {
      NothingUnfinished(callbacks[..|callbacks| - 1]);
      forall i | 0 <= i < |callbacks| ensures Over(callbacks[i].phase) {
        if i < |callbacks| - 1 {
          assert callbacks[i] == callbacks[..|callbacks| - 1][i];
        }
      }
    }
  }

  /** Close waits for the count to reach zero. When it does, every callback is over, and no step
      whatever changes the watcher again. */
  lemma {:induction false} ClosedIsQuiet(w: Watcher, steps: seq<Step>)
    requires Steady(w) && w.closed && w.waits == 0
    ensures (forall i :: 0 <= i < |w.callbacks| ==> Over(w.callbacks[i].phase)) && Run(w, steps) == w
    decreases |steps|
  {
    NothingUnfinished(w.callbacks);
    if steps != [] {
      assert Next(w, steps[0]) == w;
      ClosedIsQuiet(w, steps[1..]);
    }
  }
}
