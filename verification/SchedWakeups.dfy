/** When a waiting task is left in front of a free slot, and who comes for it
    (internal/execution/usecase/advance.go, slotreleaser.go). */
module SchedWakeups {
  import opened SchedModel
  import opened SchedRuns

  /** A slot given back is free. */
  lemma FreedSlot(c: Limits, active: map<TaskId, bool>, id: TaskId)
    requires id in active && |active| <= c.tasks && ImplCount(active) <= c.impl
    ensures SlotFree(c, active - {id}, active[id])
  {
    assert (active - {id}).Keys == active.Keys - {id};
    assert |active.Keys - {id}| == |active.Keys| - 1;
    if active[id] {
      assert ImplIds(active - {id}) == ImplIds(active) - {id};
    }
  }

  /** A refused start leaves its task at the head, in front of the slot it gave back. */
  lemma RefusalLeavesFree(c: Limits, w: World, worker: nat)
    requires Inv(c, w) && worker in w.releasers && w.releasers[worker].Starting?
    requires var job := w.releasers[worker].job; job.id in w.s.active && w.s.active[job.id] == job.impl
    ensures var n := Next(c, w, StartRefused(worker));
            n.s.queue == [w.releasers[worker].job] + w.s.queue && !Blocked(c, n.s)
  {
    FreedSlot(c, w.s.active, w.releasers[worker].job.id);
  }

  /** With no release in flight and none beginning, nobody ever comes: whatever else happens, the head
      stays where it is and nothing is launched. */
  lemma {:induction false} NobodyComes(c: Limits, trace: seq<World>, steps: seq<Step>, i: nat)
    requires Path(c, trace, steps) && i < |trace| && trace[0].releasers == map[] && trace[0].s.queue != []
    requires forall k :: 0 <= k < |steps| ==> !steps[k].Release?
    ensures trace[i].releasers == map[] && trace[i].launched == trace[0].launched
    ensures trace[i].s.queue != [] && trace[i].s.queue[0] == trace[0].s.queue[0]
  {
    if i > 0 {
      NobodyComes(c, trace, steps, i - 1);
      assert Enabled(trace[i - 1], steps[i - 1]) && trace[i] == Next(c, trace[i - 1], steps[i - 1]);
    }
  }

  /** A release in flight that is not cancelled serves a head that can be launched and has its slot. */
  lemma AnotherServes(c: Limits, w: World, worker: nat, cancelAt: nat)
    requires Inv(c, w) && worker in w.releasers && w.releasers[worker].Advancing? && cancelAt >= LOOKS
    requires !Blocked(c, w.s) && !Stuck(w.s)
    ensures var n := DoAdvance(c, w, worker, cancelAt);
            n.launched == w.launched + [w.s.queue[0]]
                && n.releasers[worker] == Starting(w.releasers[worker].finished, w.s.queue[0])
  {
    Serves(c, w.s, w.releasers[worker].finished, cancelAt);
  }

  lemma Serves(c: Limits, s: Sched, finished: TaskId, cancelAt: nat)
    requires QueueOk(s) && !Blocked(c, s) && !Stuck(s) && cancelAt >= LOOKS
    ensures AdvanceQueue(c, s, finished, cancelAt) ==
              (Promote(s.(active := s.active - {finished})), Promoted(s.queue[0]))
  {
    assert s.queue[0].queued;
    ReleasingFrees(c, s.active, finished, s.queue[0].impl);
  }

  lemma ReleasingFrees(c: Limits, active: map<TaskId, bool>, finished: TaskId, impl: bool)
    requires SlotFree(c, active, impl)
    ensures SlotFree(c, active - {finished}, impl)
  {
    ImplCountRemove(active, finished);
  }

  predicate NobodyStarting(w: World) {
    forall worker :: worker in w.releasers ==> w.releasers[worker].Advancing?
  }

  predicate SameHead(w: World, n: World) {
    NobodyStarting(n) && n.launched == w.launched && n.s.queue != [] && w.s.queue != [] && n.s.queue[0] == w.s.queue[0]
  }

  lemma StuckAdvance(c: Limits, w: World, worker: nat, cancelAt: nat)
    requires QueueOk(w.s) && Stuck(w.s) && NobodyStarting(w) && worker in w.releasers
    ensures SameHead(w, DoAdvance(c, w, worker, cancelAt))
  {
    var finished := w.releasers[worker].finished;
    assert w.s.queue[0].queued;
    AdvanceQueueCases(c, w.s, finished, cancelAt);
    assert !AdvanceQueue(c, w.s, finished, cancelAt).1.Promoted?;
  }

  lemma StuckAdmit(c: Limits, w: World, job: Job, wellFormed: bool, submittable: bool)
    requires w.s.queue != [] && NobodyStarting(w)
    ensures SameHead(w, DoAdmit(c, w, job, wellFormed, submittable))
  {
  }

  lemma StuckStep(c: Limits, w: World, e: Step)
    requires QueueOk(w.s) && Stuck(w.s) && NobodyStarting(w) && Enabled(w, e)
    ensures SameHead(w, Next(c, w, e))
  {
    match e
    case AdmitStep(job, wellFormed, submittable) => StuckAdmit(c, w, job, wellFormed, submittable);
    case AdvanceStep(worker, cancelAt) => StuckAdvance(c, w, worker, cancelAt);
    case _ =>
  }

  /** A head whose snapshot does not validate blocks the queue for good: whatever happens, releases
      included, it stays in front and nothing is launched any more. */
  lemma {:induction false} StuckForGood(c: Limits, trace: seq<World>, steps: seq<Step>, i: nat)
    requires Path(c, trace, steps) && i < |trace|
    requires Inv(c, trace[0]) && Stuck(trace[0].s) && NobodyStarting(trace[0])
    ensures Inv(c, trace[i]) && Stuck(trace[i].s) && NobodyStarting(trace[i])
    ensures trace[i].launched == trace[0].launched && trace[i].s.queue[0] == trace[0].s.queue[0]
  {
    if i > 0 {
      StuckForGood(c, trace, steps, i - 1);
      assert Enabled(trace[i - 1], steps[i - 1]) && trace[i] == Next(c, trace[i - 1], steps[i - 1]);
      NextInv(c, trace[i - 1], steps[i - 1]);
      StuckStep(c, trace[i - 1], steps[i - 1]);
    }
  }

  // ---- two runs on which a wake-up is lost ----

  const ONE_SLOT: Limits := Limits(1, 1, 5)

  const FIRST: Job := Job(1, false, true, true)

  function Second(ok: bool): Job {
    Job(2, false, true, ok)
  }

  /** One task runs, another waits. */
  function Waiting(ok: bool): World {
    World(Sched([Second(ok)], map[1 := 1, 2 := 1], map[1 := false], {1}, {}), map[], [FIRST, Second(ok)], [FIRST],
          multiset{FIRST}, multiset{}, false, false, false)
  }

  function Running(): World {
    World(Sched([], map[1 := 1], map[1 := false], {1}, {}), map[], [FIRST], [FIRST], multiset{FIRST}, multiset{},
          false, false, false)
  }

  lemma ReachRunning()
    ensures Next(ONE_SLOT, INITIAL, AdmitStep(FIRST, true, true)) == Running()
  {
    assert ImplCount(map[]) == 0;
    assert map[][1 := false] == map[1 := false] && map[][1 := 1] == map[1 := 1];
  }

  lemma ReachWaiting(ok: bool)
    ensures Enabled(Running(), AdmitStep(Second(ok), true, true))
    ensures Next(ONE_SLOT, Running(), AdmitStep(Second(ok), true, true)) == Waiting(ok)
  {
    assert |map[1 := false]| == 1;
    assert [] + [Second(ok)] == [Second(ok)] && [FIRST] + [Second(ok)] == [FIRST, Second(ok)];
    assert map[1 := 1][2 := 1] == map[1 := 1, 2 := 1];
  }

  function Finishing(ok: bool): World {
    Waiting(ok).(releasers := map[0 := Advancing(1)])
  }

  /** The waiting task's snapshot does not validate: an uncancelled advance gives up on it. */
  lemma StuckHead()
    ensures Next(ONE_SLOT, Finishing(false), AdvanceStep(0, LOOKS)) ==
            Waiting(false).(s := Waiting(false).s.(active := map[]))
  {
    assert Waiting(false).s.active - {1} == map[];
    assert Finishing(false).releasers - {0} == map[];
  }

  lemma Extend(c: Limits, trace: seq<World>, steps: seq<Step>, e: Step)
    requires Run(c, trace, steps) && Enabled(trace[|steps|], e)
    ensures Run(c, trace + [Next(c, trace[|steps|], e)], steps + [e])
  {
  }

  /** Both runs begin alike: the first task finishes while the second waits. */
  lemma ReachFinishing(ok: bool) returns (trace: seq<World>, steps: seq<Step>)
    ensures Run(ONE_SLOT, trace, steps) && |steps| == 3 && trace[3] == Finishing(ok)
  {
    ReachRunning();
    Extend(ONE_SLOT, [INITIAL], [], AdmitStep(FIRST, true, true));
    trace, steps := [INITIAL] + [Running()], [] + [AdmitStep(FIRST, true, true)];
    ReachWaiting(ok);
    Extend(ONE_SLOT, trace, steps, AdmitStep(Second(ok), true, true));
    trace, steps := trace + [Waiting(ok)], steps + [AdmitStep(Second(ok), true, true)];
    Extend(ONE_SLOT, trace, steps, Release(0, 1));
    assert map[][0 := Advancing(1)] == map[0 := Advancing(1)];
    trace, steps := trace + [Finishing(ok)], steps + [Release(0, 1)];
  }

  /** No cancellation, no refusal, no release in flight: a task waits in front of a free slot. */
  lemma StuckRun() returns (trace: seq<World>, steps: seq<Step>)
    ensures Run(ONE_SLOT, trace, steps)
    ensures var w := trace[|steps|];
            !w.disturbed && !w.refusal && w.releasers == map[] && w.s.queue == [Second(false)]
                && !Blocked(ONE_SLOT, w.s)
  {
    trace, steps := ReachFinishing(false);
    Extend(ONE_SLOT, trace, steps, AdvanceStep(0, LOOKS));
    StuckHead();
    trace, steps := trace + [Next(ONE_SLOT, Finishing(false), AdvanceStep(0, LOOKS))], steps + [AdvanceStep(0, LOOKS)];
  }

  function Started(): World {
    World(Sched([], map[1 := 1, 2 := 1], map[2 := false], {1, 2}, {2}), map[0 := Starting(1, Second(true))],
          [FIRST, Second(true)], [FIRST, Second(true)], multiset{FIRST, Second(true)}, multiset{}, false, false, false)
  }

  lemma ReachStarted()
    ensures Next(ONE_SLOT, Finishing(true), AdvanceStep(0, LOOKS)) == Started()
  {
    var s := Waiting(true).s;
    assert s.active - {1} == map[];
    assert s.queue[1..] == [];
    assert {1} + {2} == {1, 2};
    assert Reindexed([], 0, s.positions) == s.positions;
    assert [FIRST] + [Second(true)] == [FIRST, Second(true)];
    assert multiset{FIRST} + multiset{Second(true)} == multiset{FIRST, Second(true)};
  }

  lemma RefuseStarted()
    ensures var w := Next(ONE_SLOT, Started(), StartRefused(0));
            w.releasers == map[] && w.s.queue == [Second(true)] && w.s.active == map[]
  {
    assert [Second(true)] + [] == [Second(true)];
  }

  /** A start refused with no other release in flight: the same. */
  lemma RefusedRun() returns (trace: seq<World>, steps: seq<Step>)
    ensures Run(ONE_SLOT, trace, steps)
    ensures var w := trace[|steps|];
            w.releasers == map[] && w.s.queue == [Second(true)] && !Blocked(ONE_SLOT, w.s) && !Stuck(w.s)
  {
    trace, steps := ReachFinishing(true);
    Extend(ONE_SLOT, trace, steps, AdvanceStep(0, LOOKS));
    ReachStarted();
    trace, steps := trace + [Started()], steps + [AdvanceStep(0, LOOKS)];
    Extend(ONE_SLOT, trace, steps, StartRefused(0));
    RefuseStarted();
    trace, steps := trace + [Next(ONE_SLOT, Started(), StartRefused(0))], steps + [StartRefused(0)];
  }
}
