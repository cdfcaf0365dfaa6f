/** What each step of the timeout watcher brings about, and that an armed task is enforced, seven times if every
    attempt may be retried (internal/execution/timeout.go). */
module TimerEffects {
  import opened TaskDomain
  import opened TimerModel

  predicate SameCallbacks(w: Watcher, w': Watcher, but: nat) {
    && |w.callbacks| <= |w'.callbacks|
    && forall i :: 0 <= i < |w.callbacks| && i != but ==> w'.callbacks[i] == w.callbacks[i]
  }

  ghost predicate SameEntries(w: Watcher, w': Watcher, but: TaskId) {
    forall id :: id != but ==>
        (id in w'.timers <==> id in w.timers) && (id in w.timers ==> w'.timers[id] == w.timers[id])
  }

  /** An idle entry of this generation, standing on this waiting callback. */
  predicate Waits(w: Watcher, id: TaskId, k: nat, generation: nat, retries: nat) {
    && id in w.timers && w.timers[id] == Armed(k, generation, retries, false)
    && In(w, k, Waiting) && w.callbacks[k].task == id && w.callbacks[k].generation == generation
  }

  /** Its enforcement is running. */
  predicate Enforces(w: Watcher, id: TaskId, k: nat, generation: nat, retries: nat) {
    && id in w.timers && w.timers[id] == Armed(k, generation, retries, true)
    && In(w, k, Executing) && w.callbacks[k].task == id && w.callbacks[k].generation == generation
  }

  // ---- one step ----

  /** Arming an open watcher makes the task wait under a new generation; a callback still waiting for it is
      stopped, and nobody else's changes. A closed one does not arm. */
  lemma ArmEffect(w: Watcher, id: TaskId)
    requires Steady(w)
    ensures var w' := Arm(w, id);
            var was := if id in w.timers then w.timers[id].callback else |w.callbacks|;
            && (w.closed ==> w' == w)
            && (!w.closed ==>
                  && Waits(w', id, |w.callbacks|, w.generation + 1, 0) && w'.generation == w.generation + 1
                  && SameCallbacks(w, w', was) && SameEntries(w, w', id) && w'.started == w.started
                  && (In(w, was, Waiting) ==> In(w', was, Stopped))
                  && (was < |w.callbacks| && !In(w, was, Waiting) ==> w'.callbacks[was] == w.callbacks[was]))
  {
    assert id in w.timers ==> EntryOk(w, id);
  }

  /** Disarming takes the entry away and stops its callback, unless that has fired already. */
  lemma DisarmEffect(w: Watcher, id: TaskId)
    requires Steady(w)
    ensures var w' := Disarm(w, id);
            && id !in w'.timers && SameEntries(w, w', id)
            && w'.started == w.started && w'.generation == w.generation && w'.closed == w.closed
            && (id !in w.timers ==> w' == w)
            && (id in w.timers ==>
                  var k := w.timers[id].callback;
                  SameCallbacks(w, w', k) && |w'.callbacks| == |w.callbacks|
                  && w'.callbacks[k] == if In(w, k, Waiting) then w.callbacks[k].(phase := Stopped) else w.callbacks[k])
  {
    assert id in w.timers ==> EntryOk(w, id);
  }

  /** A fired callback goes on to enforce exactly if its generation is armed and idle and the watcher open: then
      its entry is marked and the start recorded. Otherwise it leaves and nothing else happens. */
  lemma BeginEffect(w: Watcher, k: nat)
    requires In(w, k, Fired)
    ensures var c, w' := w.callbacks[k], Begin(w, k);
            var enforces := !w.closed && c.task in w.timers && w.timers[c.task].generation == c.generation
                            && !w.timers[c.task].executing;
            && (In(w', k, Executing) <==> enforces) && (In(w', k, Leaving) <==> !enforces)
            && SameCallbacks(w, w', k) && |w'.callbacks| == |w.callbacks| && SameEntries(w, w', c.task)
            && w'.waits == w.waits && w'.closed == w.closed && w'.generation == w.generation
            && (enforces ==>
                  && c.task in w'.timers && w'.timers[c.task] == w.timers[c.task].(executing := true)
                  && (forall g :: Count(w'.started, g) == Count(w.started, g) + if g == c.generation then 1 else 0))
            && (!enforces ==> w'.timers == w.timers && w'.started == w.started)
  {
    forall g ensures Count(w.started + [w.callbacks[k].generation], g)
                  == Count(w.started, g) + if g == w.callbacks[k].generation then 1 else 0
    {
      CountAppend(w.started, w.callbacks[k].generation, g);
    }
  }

  /** An enforcement that ends under a generation no longer armed only leaves. One that is awaited leaves its
      task waiting on a new callback of the same generation exactly if the failure may be retried, fewer than
      six retries were made and the watcher is open; otherwise the entry is gone. */
  lemma FinishEffect(w: Watcher, k: nat, retryable: bool)
    requires In(w, k, Executing)
    ensures var c, w' := w.callbacks[k], Finish(w, k, retryable);
            var awaited := c.task in w.timers && w.timers[c.task].generation == c.generation;
            && In(w', k, Leaving) && SameCallbacks(w, w', k) && SameEntries(w, w', c.task)
            && w'.started == w.started && w'.closed == w.closed && w'.generation == w.generation
            && (!awaited ==> w'.timers == w.timers && |w'.callbacks| == |w.callbacks| && w'.waits == w.waits)
            && (awaited ==>
                  var again := !w.closed && retryable && w.timers[c.task].retries < 6;
                  && (again ==> Waits(w', c.task, |w.callbacks|, c.generation, w.timers[c.task].retries + 1)
                                && w'.waits == w.waits + 1 && |w'.callbacks| == |w.callbacks| + 1)
                  && (!again ==> c.task !in w'.timers && w'.waits == w.waits && |w'.callbacks| == |w.callbacks|))
  {
  }

  /** Closing stops every callback an entry waits on and touches no other. */
  lemma {:induction false} DisarmAllStops(w: Watcher, order: seq<TaskId>, k: nat)
    requires Steady(w) && k < |w.callbacks|
    ensures var w' := DisarmAll(w, order);
            var stopped := w.callbacks[k].phase == Waiting
                           && exists id :: id in w.timers && id in order && w.timers[id].callback == k;
            && |w'.callbacks| == |w.callbacks|
            && w'.callbacks[k] == if stopped then w.callbacks[k].(phase := Stopped) else w.callbacks[k]
    decreases |order|
  {
    if order != [] {
      var id := order[0];
      var next := Disarm(w, id);
      DisarmOk(w, id);
      DisarmEffect(w, id);
      DisarmAllStops(next, order[1..], k);
      if id in w.timers && w.timers[id].callback == k {
        forall other | other in next.timers
          ensures next.timers[other].callback != k
        {
          GenerationsDiffer(w, id, other);
        }
      }
    }
  }

  lemma CloseEffect(w: Watcher, order: seq<TaskId>, k: nat)
    requires Steady(w) && Covers(w, order) && !w.closed && k < |w.callbacks|
    ensures var w' := Close(w, order);
            && w'.closed && w'.timers == map[] && w'.started == w.started && |w'.callbacks| == |w.callbacks|
            && w'.callbacks[k] == if w.callbacks[k].phase == Waiting
                                     && exists id :: id in w.timers && w.timers[id].callback == k
                                  then w.callbacks[k].(phase := Stopped) else w.callbacks[k]
  {
    CloseOk(w, order);
    DisarmAllOk(w, order);
    DisarmAllStops(w, order, k);
    DisarmAllShrinks(w, order);
  }

  // ---- an armed task is enforced ----

  /** Steps that are not about this task: other tasks armed or disarmed, other callbacks moving on. */
  predicate Elsewhere(e: Step, id: TaskId, k: nat) {
    match e
    case ArmStep(other) => other != id
    case DisarmStep(other) => other != id
    case CloseStep(_) => false
    case FireStep(j) => j != k
    case BeginStep(j) => j != k
    case FinishStep(j, _) => j != k
    case LeaveStep(j) => j != k
  }

  ghost predicate AllElsewhere(steps: seq<Step>, id: TaskId, k: nat) {
    forall i :: 0 <= i < |steps| ==> Elsewhere(steps[i], id, k)
  }

  predicate SameTask(w: Watcher, w': Watcher, id: TaskId)
    requires id in w.timers && w.timers[id].callback < |w.callbacks|
  {
    && id in w'.timers && w'.timers[id] == w.timers[id] && w'.closed == w.closed
    && |w.callbacks| <= |w'.callbacks|
    && w'.callbacks[w.timers[id].callback] == w.callbacks[w.timers[id].callback]
    && Count(w'.started, w.timers[id].generation) == Count(w.started, w.timers[id].generation)
  }

  lemma KeepsTask(w: Watcher, e: Step, id: TaskId)
    requires Steady(w) && id in w.timers && Elsewhere(e, id, w.timers[id].callback)
    ensures EntryOk(w, id) && SameTask(w, Next(w, e), id)
  {
    assert EntryOk(w, id);
    match e {
      case ArmStep(other) =>
        if other in w.timers {
          GenerationsDiffer(w, id, other);
        }
      case DisarmStep(other) =>
        if other in w.timers {
          GenerationsDiffer(w, id, other);
        }
      case BeginStep(j) =>
        if In(w, j, Fired) {
          BeginKeepsTask(w, j, id);
        }
      case FinishStep(j, _) =>
        if In(w, j, Executing) && Awaited(w, j) {
          AwaitedStands(w, j);
        }
      case _ =>
    }
  }

  lemma BeginKeepsTask(w: Watcher, j: nat, id: TaskId)
    requires Steady(w) && id in w.timers && EntryOk(w, id) && In(w, j, Fired) && j != w.timers[id].callback
    ensures SameTask(w, Begin(w, j), id)
  {
    BeginEffect(w, j);
    if Awaited(w, j) {
      AwaitedStands(w, j);
      GenerationsDiffer(w, id, w.callbacks[j].task);
    }
  }

  lemma {:induction false} RunKeepsTask(w: Watcher, steps: seq<Step>, id: TaskId)
    requires Steady(w) && id in w.timers && AllElsewhere(steps, id, w.timers[id].callback)
    ensures EntryOk(w, id) && Steady(Run(w, steps)) && SameTask(w, Run(w, steps), id)
    decreases |steps|
  {
    assert EntryOk(w, id);
    if steps != [] {
      assert Elsewhere(steps[0], id, w.timers[id].callback);
      KeepsTask(w, steps[0], id);
      NextOk(w, steps[0]);
      RunKeepsTask(Next(w, steps[0]), steps[1..], id);
    }
  }

  /** Whatever happens elsewhere, a waiting task whose callback fires and enters is enforced. */
  lemma WaitingIsEnforced(w: Watcher, id: TaskId, k: nat, g: nat, retries: nat, before: seq<Step>, between: seq<Step>)
    requires Steady(w) && Waits(w, id, k, g, retries) && AllElsewhere(before, id, k) && AllElsewhere(between, id, k)
    ensures var fired := Next(Run(w, before), FireStep(k));
            var w' := Next(Run(fired, between), BeginStep(k));
            Steady(w') && Enforces(w', id, k, g, retries) && Count(w'.started, g) == Count(w.started, g) + 1
  {
    RunKeepsTask(w, before, id);
    var w1 := Run(w, before);
    NextOk(w1, FireStep(k));
    var w2 := Next(w1, FireStep(k));
    RunKeepsTask(w2, between, id);
    var w3 := Run(w2, between);
    NextOk(w3, BeginStep(k));
    assert w3.timers == map[] ==> id !in w3.timers;
    BeginEffect(w3, k);
  }

  /** Whatever happens elsewhere, an enforcement that fails and may be retried leaves its task waiting again,
      six times. */
  lemma FailureIsRetried(w: Watcher, id: TaskId, k: nat, g: nat, retries: nat, during: seq<Step>)
    requires Steady(w) && Enforces(w, id, k, g, retries) && retries < 6 && AllElsewhere(during, id, k)
    ensures var w1 := Run(w, during);
            var w' := Next(w1, FinishStep(k, true));
            && Steady(w') && Waits(w', id, |w1.callbacks|, g, retries + 1)
            && Count(w'.started, g) == Count(w.started, g)
  {
    RunKeepsTask(w, during, id);
    var w1 := Run(w, during);
    NextOk(w1, FinishStep(k, true));
    assert w1.timers == map[] ==> id !in w1.timers;
    FinishEffect(w1, k, true);
  }

  // ---- seven times ----

  /** n attempts one after the other, the first on callback k, each further one on the next one made; all but
      the last fail and may be retried. */
  function Attempts(k: nat, next: nat, n: nat): seq<Step>
    requires n >= 1
    decreases n
  {
    if n == 1 then [FireStep(k), BeginStep(k)]
    else [FireStep(k), BeginStep(k), FinishStep(k, true)] + Attempts(next, next + 1, n - 1)
  }

  lemma {:induction false} RunAppend(w: Watcher, first: seq<Step>, second: seq<Step>)
    ensures Run(w, first + second) == Run(Run(w, first), second)
    decreases |first|
  {
    if first == [] {
      assert first + second == second;
    } else {
      assert (first + second)[1..] == first[1..] + second;
      RunAppend(Next(w, first[0]), first[1..], second);
    }
  }

  lemma RunTwo(w: Watcher, a: Step, b: Step)
    ensures Run(w, [a, b]) == Next(Next(w, a), b)
  {
    assert [a, b][1..] == [b] && [b][1..] == [];
    assert Run(Next(w, a), [b]) == Run(Next(Next(w, a), b), []);
  }

  lemma RunThree(w: Watcher, a: Step, b: Step, c: Step)
    ensures Run(w, [a, b, c]) == Next(Next(Next(w, a), b), c)
  {
    assert [a, b, c] == [a, b] + [c];
    RunAppend(w, [a, b], [c]);
    RunTwo(w, a, b);
    assert [c][1..] == [];
    assert Run(Run(w, [a, b]), [c]) == Run(Next(Run(w, [a, b]), c), []);
  }

  lemma EnforcedAtOnce(w: Watcher, id: TaskId, k: nat, g: nat, retries: nat)
    requires Steady(w) && Waits(w, id, k, g, retries)
    ensures var w' := Run(w, [FireStep(k), BeginStep(k)]);
            && Steady(w') && Enforces(w', id, k, g, retries) && Count(w'.started, g) == Count(w.started, g) + 1
            && |w'.callbacks| == |w.callbacks|
  {
    WaitingIsEnforced(w, id, k, g, retries, [], []);
    RunTwo(w, FireStep(k), BeginStep(k));
  }

  lemma RetriedAtOnce(w: Watcher, id: TaskId, k: nat, g: nat, retries: nat)
    requires Steady(w) && Waits(w, id, k, g, retries) && retries < 6
    ensures var w' := Run(w, [FireStep(k), BeginStep(k), FinishStep(k, true)]);
            && Steady(w') && Waits(w', id, |w.callbacks|, g, retries + 1)
            && Count(w'.started, g) == Count(w.started, g) + 1 && |w'.callbacks| == |w.callbacks| + 1
  {
    EnforcedAtOnce(w, id, k, g, retries);
    RetriedNow(Run(w, [FireStep(k), BeginStep(k)]), id, k, g, retries);
    RunTwo(w, FireStep(k), BeginStep(k));
    RunThree(w, FireStep(k), BeginStep(k), FinishStep(k, true));
  }

  lemma RetriedNow(w: Watcher, id: TaskId, k: nat, g: nat, retries: nat)
    requires Steady(w) && Enforces(w, id, k, g, retries) && retries < 6
    ensures var w' := Next(w, FinishStep(k, true));
            && Steady(w') && Waits(w', id, |w.callbacks|, g, retries + 1)
            && w'.started == w.started && |w'.callbacks| == |w.callbacks| + 1
  {
    NextOk(w, FinishStep(k, true));
    assert w.timers == map[] ==> id !in w.timers;
    FinishEffect(w, k, true);
  }

  lemma {:induction false} AttemptsStart(w: Watcher, id: TaskId, k: nat, g: nat, retries: nat, n: nat)
    requires Steady(w) && Waits(w, id, k, g, retries) && 1 <= n <= 7 - retries
    ensures Count(Run(w, Attempts(k, |w.callbacks|, n)).started, g) == Count(w.started, g) + n
    decreases n
  {
    if n == 1 {
      EnforcedAtOnce(w, id, k, g, retries);
    } else {
      var first := [FireStep(k), BeginStep(k), FinishStep(k, true)];
      RetriedAtOnce(w, id, k, g, retries);
      RunAppend(w, first, Attempts(|w.callbacks|, |w.callbacks| + 1, n - 1));
      AttemptsStart(Run(w, first), id, |w.callbacks|, g, retries + 1, n - 1);
    }
  }

  /** The bound of seven is met: a run in which one generation is enforced exactly seven times. */
  lemma SevenTimes(id: TaskId)
    ensures Count(Run(IDLE, [ArmStep(id)] + Attempts(0, 1, 7)).started, 1) == 7
  {
    var armed := Arm(IDLE, id);
    ArmEffect(IDLE, id);
    ArmOk(IDLE, id);
    AttemptsStart(armed, id, 0, 1, 0, 7);
    assert ([ArmStep(id)] + Attempts(0, 1, 7))[1..] == Attempts(0, 1, 7);
  }
}
