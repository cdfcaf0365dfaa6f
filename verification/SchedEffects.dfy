/** What each scheduling step comes to, on the state it finds: when a task starts at once, waits or is turned
    away, what it is told, and what a release hands out (internal/execution/usecase/admit.go, advance.go,
    slotreleaser.go). */
module SchedEffects {
  import opened SchedModel
  import opened SchedRuns
  import opened Scheduler

  /** There is room for the task at once: a slot of its kind, and nobody waiting before it. */
  predicate StartsAtOnce(c: Limits, s: Sched, job: Job) {
    s.queue == [] && |s.active| < c.tasks && (job.impl ==> ImplCount(s.active) < c.impl)
  }

  predicate MayWait(c: Limits, s: Sched) {
    |s.queue| + |s.promotions| < c.depth
  }

  /** Exactly when an admission comes to which of its four outcomes. */
  lemma AdmitOutcome(c: Limits, s: Sched, job: Job, wellFormed: bool, submittable: bool)
    ensures var outcome := Admit(c, s, job, wellFormed, submittable).1;
            var good := wellFormed && submittable;
            && (outcome.Immediate? <==> good && StartsAtOnce(c, s, job) && job.snapshotOk)
            && (outcome.Queued? <==> good && !StartsAtOnce(c, s, job) && MayWait(c, s))
            && (outcome.QueueFull? <==> wellFormed && !StartsAtOnce(c, s, job) && !MayWait(c, s))
            && (outcome.Refused? <==> !wellFormed || (StartsAtOnce(c, s, job) && !(submittable && job.snapshotOk))
                                      || (MayWait(c, s) && !submittable))
  {
  }

  /** What the scheduler holds afterwards: a started task has a slot of its kind and is launching, a waiting
      one is last in line and told the position stored for it, which is the length of the line; nobody else's
      entry changes, and a task turned away leaves no trace. */
  lemma AdmitEffect(c: Limits, s: Sched, job: Job, wellFormed: bool, submittable: bool, other: TaskId)
    requires other != job.id
    ensures var (s', outcome) := Admit(c, s, job, wellFormed, submittable);
            && s'.promotions == s.promotions
            && (other in s'.active <==> other in s.active)
                && (other in s.active ==> s'.active[other] == s.active[other])
            && (other in s'.launching <==> other in s.launching)
            && (other in s'.positions <==> other in s.positions)
            && (other in s.positions ==> s'.positions[other] == s.positions[other])
            && (outcome.Immediate? ==>
                  && job.id in s'.active && s'.active[job.id] == job.impl && job.id in s'.launching
                  && s'.queue == s.queue)
            && (outcome.Queued? ==>
                  && s'.active == s.active && s'.launching == s.launching
                  && |s'.queue| == |s.queue| + 1 && s'.queue[..|s.queue|] == s.queue && s'.queue[|s.queue|] == job
                  && outcome.position == |s'.queue| && job.id in s'.positions
                      && s'.positions[job.id] == outcome.position)
            && (outcome.QueueFull? || outcome.Refused? ==> s' == s)
  {
  }

  /** A start refused gives the reservation back, and every other task keeps what it had. */
  lemma UndoAdmitRestores(c: Limits, s: Sched, job: Job)
    requires job.id !in s.active && job.id !in s.launching
    requires Admit(c, s, job, true, true).1 == Immediate
    ensures var back := UndoAdmit(Admit(c, s, job, true, true).0, job.id);
            && back.active == s.active && back.launching == s.launching
            && back.queue == s.queue && back.promotions == s.promotions
            && forall id :: id != job.id ==>
                 (id in back.positions <==> id in s.positions)
                     && (id in s.positions ==> back.positions[id] == s.positions[id])
  {
    var back := UndoAdmit(Admit(c, s, job, true, true).0, job.id);
    assert back.active == s.active && back.launching == s.launching;
  }

  /** The reservation is gone whenever it is undone, whatever happened in between. */
  lemma UndoAdmitFrees(s: Sched, id: TaskId, other: TaskId)
    ensures var back := UndoAdmit(s, id);
            && id !in back.active && id !in back.launching
            && (other != id ==>
                  && (other in back.active <==> other in s.active)
                  && (other in s.active ==> back.active[other] == s.active[other])
                  && (other in back.launching <==> other in s.launching))
            && back.queue == s.queue && back.positions == s.positions && back.promotions == s.promotions
  {
  }

  /** The head can have its slot once the finished task has given up its own. */
  predicate HeadReady(c: Limits, s: Sched, finished: TaskId) {
    && s.queue != [] && s.queue[0].queued && s.queue[0].snapshotOk
    && SlotFree(c, s.active - {finished}, s.queue[0].impl)
  }

  /** A pass that no cancellation disturbs promotes the head exactly if it can have its slot; one that
      cancellation reaches before its last look promotes nothing. */
  lemma AdvanceOutcome(c: Limits, s: Sched, finished: TaskId, cancelAt: nat)
    ensures var (s', outcome) := AdvanceQueue(c, s, finished, cancelAt);
            && (outcome.Promoted? <==> cancelAt >= LOOKS && HeadReady(c, s, finished))
            && (outcome.Promoted? ==> outcome.job == s.queue[0])
            && (outcome.Nothing? <==> cancelAt >= 3 && Blocked(c, s.(active := s.active - {finished}))
                                      && (s.queue == [] || s.queue[0].queued))
            && (cancelAt >= 2 && !outcome.Promoted? ==> finished !in s'.active)
  {
  }

  lemma ReadyPromotes(c: Limits, s: Sched, finished: TaskId)
    requires HeadReady(c, s, finished)
    ensures AdvanceQueue(c, s, finished, LOOKS).0 == Promote(s.(active := s.active - {finished}))
  {
  }

  /** A promoted head has a slot of its kind, is launching and unresolved; the line moves up by one and is
      numbered from one again; the finished task's slot is free, and nobody else's changes. */
  lemma PromotionEffect(c: Limits, s: Sched, finished: TaskId, other: TaskId)
    requires QueueOk(s) && HeadReady(c, s, finished) && other != s.queue[0].id
    ensures var s' := AdvanceQueue(c, s, finished, LOOKS).0;
            var head := s.queue[0];
            && head.id in s'.active && s'.active[head.id] == head.impl
            && head.id in s'.launching && head.id in s'.promotions
            && (other in s'.active <==> other in s.active && other != finished)
            && (other in s'.active ==> s'.active[other] == s.active[other])
            && (other in s'.launching <==> other in s.launching)
            && (other in s'.promotions <==> other in s.promotions)
            && [head] + s'.queue == s.queue && PositionsOk(s'.queue, s'.positions)
  {
    ReadyPromotes(c, s, finished);
    var q := s.queue[1..];
    assert forall i :: 0 <= i < |q| ==> q[i] == s.queue[i + 1];
    ReindexOk(q, s.positions);
    assert [s.queue[0]] + q == s.queue;
  }

  /** Accepting a start resolves its promotion and nothing else; refusing it puts the task back in front,
      without a slot. */
  lemma ResolveEffect(s: Sched, job: Job, other: TaskId)
    requires QueueOk(s) && job.id in s.promotions && other != job.id
    ensures var done, back := Commit(s, job), Compensate(s, job);
            && job.id !in done.promotions && (other in done.promotions <==> other in s.promotions)
            && done.(promotions := s.promotions) == s
            && job.id !in back.promotions && job.id !in back.active && job.id !in back.launching
            && |back.queue| == |s.queue| + 1 && back.queue[0] == job && back.queue[1..] == s.queue
            && PositionsOk(back.queue, back.positions)
            && (other in back.promotions <==> other in s.promotions)
            && (other in back.active <==> other in s.active)
                && (other in s.active ==> back.active[other] == s.active[other])
            && (other in back.launching <==> other in s.launching)
  {
    var q := [job] + s.queue;
    assert forall i :: 1 <= i < |q| ==> q[i] == s.queue[i - 1];
    assert forall i :: 0 <= i < |s.queue| ==> s.queue[i].id != job.id;
    assert DistinctIds(q);
    ReindexOk(q, s.positions);
  }

  /** The slots taken once the first k tasks of the line have theirs. */
  function Given(active: map<TaskId, bool>, q: seq<Job>, k: nat): map<TaskId, bool>
    requires k <= |q|
  {
    if k == 0 then active else Given(active, q, k - 1)[q[k - 1].id := q[k - 1].impl]
  }

  lemma {:induction false} GivenFirst(active: map<TaskId, bool>, q: seq<Job>, k: nat)
    requires 0 < |q| && k < |q|
    ensures Given(active, q, k + 1) == Given(active[q[0].id := q[0].impl], q[1..], k)
  {
    if k > 0 {
      GivenFirst(active, q, k - 1);
      assert q[1..][k - 1] == q[k];
    }
  }

  /** The first n of the line, and no more, fit one after the other. */
  ghost predicate Fits(c: Limits, active: map<TaskId, bool>, q: seq<Job>, n: nat) {
    && n <= |q|
    && (forall k {:trigger Given(active, q, k)} :: 0 <= k < n ==> SlotFree(c, Given(active, q, k), q[k].impl))
    && (n < |q| ==> !SlotFree(c, Given(active, q, n), q[n].impl))
  }

  lemma FitsFirst(c: Limits, active: map<TaskId, bool>, q: seq<Job>, n: nat)
    requires 0 < |q| && SlotFree(c, active, q[0].impl) && n < |q|
    requires Fits(c, active[q[0].id := q[0].impl], q[1..], n)
    ensures Fits(c, active, q, n + 1)
  {
    var rest := active[q[0].id := q[0].impl];
    forall k {:trigger Given(active, q, k)} | 0 <= k < n + 1
      ensures SlotFree(c, Given(active, q, k), q[k].impl)
    {
      if k > 0 {
        GivenFirst(active, q, k - 1);
        assert SlotFree(c, Given(rest, q[1..], k - 1), q[1..][k - 1].impl);
      }
    }
    if n + 1 < |q| {
      GivenFirst(active, q, n);
      assert q[1..][n] == q[n + 1];
    }
  }

  /** From these slots and registrations on, exactly as many of the line as fit one after the other were given
      slots of their kind and are launching; the others wait as before. */
  ghost predicate Served(c: Limits, active: map<TaskId, bool>, launching: set<TaskId>, q: seq<Job>, r: Sched) {
    && |r.queue| <= |q|
    && var n := |q| - |r.queue|;
       && r.queue == q[n..] && Fits(c, active, q, n)
       && r.active == Given(active, q, n) && r.launching == launching + Ids(q[..n])
  }

  /** An undisturbed release frees the finished task's slot and serves the line. */
  lemma {:induction false} ReleaseServes(c: Limits, s: Sched, finished: TaskId, accepts: nat -> bool,
                                         cancels: nat -> nat, round: nat)
    requires QueueOk(s) && finished !in Ids(s.queue)
    requires forall k :: 0 <= k < |s.queue| ==> s.queue[k].snapshotOk
    requires forall n :: n >= round ==> accepts(n) && cancels(n) >= LOOKS
    ensures var r := ReleaseLoop(c, s, finished, accepts, cancels, round);
            Served(c, s.active - {finished}, s.launching, s.queue, r) && r.promotions == s.promotions
    decreases |s.queue|
  {
    var s1 := s.(active := s.active - {finished});
    ReleaseLoopRound(c, s, finished, accepts, cancels, round);
    if Blocked(c, s1) {
      NoneServed(c, s1);
    } else {
      var next := Commit(Promote(s1), s.queue[0]);
      RoundServes(s, finished, s1, next);
      ReleaseServes(c, next, finished, accepts, cancels, round + 1);
      OneMoreServed(c, s1.active, s.launching, s.queue, ReleaseLoop(c, next, finished, accepts, cancels, round + 1));
    }
  }

  lemma NoneServed(c: Limits, s: Sched)
    requires Blocked(c, s)
    ensures Served(c, s.active, s.launching, s.queue, s)
  {
    assert Ids(s.queue[..0]) == {};
  }

  lemma OneMoreServed(c: Limits, active: map<TaskId, bool>, launching: set<TaskId>, q: seq<Job>, r: Sched)
    requires q != [] && SlotFree(c, active, q[0].impl)
    requires Served(c, active[q[0].id := q[0].impl], launching + {q[0].id}, q[1..], r)
    ensures Served(c, active, launching, q, r)
  {
    var n := |q| - 1 - |r.queue|;
    assert Fits(c, active, q, n + 1) by {
      FitsFirst(c, active, q, n);
    }
    assert r.active == Given(active, q, n + 1) by {
      GivenFirst(active, q, n);
    }
    assert r.launching == launching + Ids(q[..n + 1]) by {
      IdsFirst(q, n);
    }
    assert r.queue == q[n + 1..];
  }

  /** One round of it. */
  lemma RoundServes(s: Sched, finished: TaskId, s1: Sched, next: Sched)
    requires QueueOk(s) && finished !in Ids(s.queue) && s.queue != []
    requires s1 == s.(active := s.active - {finished}) && next == Commit(Promote(s1), s.queue[0])
    ensures QueueOk(next) && next.queue == s.queue[1..] && finished !in Ids(next.queue)
    ensures next.active == s1.active[s.queue[0].id := s.queue[0].impl] && next.active - {finished} == next.active
    ensures next.launching == s.launching + {s.queue[0].id} && next.promotions == s.promotions
  {
    PromotedQueue(s1);
    assert forall k :: 0 <= k < |next.queue| ==> next.queue[k] == s.queue[k + 1];
    assert s.queue[0].id in Ids(s.queue);
  }

  lemma IdsFirst(q: seq<Job>, n: nat)
    requires n < |q|
    ensures Ids(q[..n + 1]) == {q[0].id} + Ids(q[1..][..n])
  {
    var first, rest := q[..n + 1], q[1..][..n];
    assert first[0] == q[0] && forall k :: 0 <= k < |rest| ==> rest[k] == first[k + 1];
    forall id | id in Ids(first)
      ensures id in {q[0].id} + Ids(rest)
    {
      var k :| 0 <= k < |first| && first[k].id == id;
      assert k == 0 || rest[k - 1].id == id;
    }
  }

  // ---- every promotion is resolved ----

  /** Some worker is starting this task. */
  ghost predicate InFlight(w: World, id: TaskId) {
    exists worker :: worker in w.releasers && w.releasers[worker].Starting? && w.releasers[worker].job.id == id
  }

  ghost predicate NoneForgotten(w: World) {
    forall id :: id in w.s.promotions ==> InFlight(w, id)
  }

  /** It stays so if the workers that moved were not the ones starting it. */
  lemma OtherInFlight(w: World, n: World, moved: set<nat>, id: TaskId)
    requires InFlight(w, id) && forall k :: k in w.releasers && k !in moved ==>
               k in n.releasers && n.releasers[k] == w.releasers[k]
    requires forall k :: k in moved && k in w.releasers && w.releasers[k].Starting? ==> w.releasers[k].job.id != id
    ensures InFlight(n, id)
  {
    var k :| k in w.releasers && w.releasers[k].Starting? && w.releasers[k].job.id == id;
    assert k in n.releasers && n.releasers[k].Starting? && n.releasers[k].job.id == id;
  }

  lemma AdvanceForgetsNone(c: Limits, w: World, worker: nat, cancelAt: nat)
    requires NoneForgotten(w) && Enabled(w, AdvanceStep(worker, cancelAt))
    ensures NoneForgotten(DoAdvance(c, w, worker, cancelAt))
  {
    var n := DoAdvance(c, w, worker, cancelAt);
    var (s, outcome) := AdvanceQueue(c, w.s, w.releasers[worker].finished, cancelAt);
    AdvanceOutcome(c, w.s, w.releasers[worker].finished, cancelAt);
    forall id | id in s.promotions
      ensures InFlight(n, id)
    {
      if id in w.s.promotions {
        OtherInFlight(w, n, {worker}, id);
      } else {
        assert n.releasers[worker].Starting? && n.releasers[worker].job.id == id;
      }
    }
  }

  lemma NextForgetsNone(c: Limits, w: World, e: Step)
    requires NoneForgotten(w) && Enabled(w, e)
    ensures NoneForgotten(SchedRuns.Next(c, w, e))
  {
    var n := SchedRuns.Next(c, w, e);
    if e.AdvanceStep? {
      AdvanceForgetsNone(c, w, e.worker, e.cancelAt);
    } else {
      forall id | id in n.s.promotions
        ensures InFlight(n, id)
      {
        assert id in w.s.promotions;
        OtherInFlight(w, n, if e.AdmitStep? || e.RefuseAdmitted? then {} else {e.worker}, id);
      }
    }
  }

  /** In every world of every run the unresolved promotions are exactly the tasks whose start is still undecided:
      none is resolved early, and none is left over. */
  lemma {:induction false} PromotionsResolved(c: Limits, trace: seq<World>, steps: seq<Step>, i: nat)
    requires SchedRuns.Run(c, trace, steps) && i < |trace|
    ensures NoneForgotten(trace[i]) && forall id :: id in trace[i].s.promotions <==> InFlight(trace[i], id)
  {
    EveryRun(c, trace, steps, i);
    if i > 0 {
      PromotionsResolved(c, trace, steps, i - 1);
      NextForgetsNone(c, trace[i - 1], steps[i - 1]);
    }
  }
}
