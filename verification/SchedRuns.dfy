/** Every run of concurrent admissions, releases, starts and refusals: capacity, order, conservation
    and wake-up (internal/execution/usecase/admit.go, advance.go, slotreleaser.go). */
module SchedRuns {
  import opened SchedModel

  /** A goroutine inside the release loop: about to advance for a finished task, or starting the task
      it just promoted. */
  datatype Releaser = Advancing(finished: TaskId) | Starting(finished: TaskId, job: Job)

  /** The scheduler, the releasers in flight, and history: jobs admitted and jobs given a slot, in
      order; slots given and not taken back; admissions whose start was refused; whether any start was
      refused; whether any was refused or any advance cancelled; and whether a promoted task's start was
      ever refused while another's was still undecided. */
  datatype World = World(s: Sched, releasers: map<nat, Releaser>,
                         admitted: seq<Job>, launched: seq<Job>,
                         holding: multiset<Job>, dropped: multiset<Job>, refusal: bool, disturbed: bool,
                         overlapped: bool)

  const INITIAL: World := World(EMPTY, map[], [], [], multiset{}, multiset{}, false, false, false)

  datatype Step =
    | AdmitStep(job: Job, wellFormed: bool, submittable: bool)
    | RefuseAdmitted(job: Job)
    | Release(worker: nat, finished: TaskId)
    | AdvanceStep(worker: nat, cancelAt: nat)
    | StartAccepted(worker: nat)
    | StartRefused(worker: nat)

  predicate Fresh(w: World, id: TaskId) {
    forall k :: 0 <= k < |w.admitted| ==> w.admitted[k].id != id
  }

  /** Which steps can be taken: ids are never reused, an admission can be refused only once and only
      if it was immediate, and a worker does what its place in the loop says. */
  predicate Enabled(w: World, e: Step) {
    match e
    case AdmitStep(job, _, _) => job.queued && Fresh(w, job.id)
    case RefuseAdmitted(job) => job in w.holding && job.id !in w.s.promotions
    case Release(worker, _) => worker !in w.releasers
    case AdvanceStep(worker, _) => worker in w.releasers && w.releasers[worker].Advancing?
    case StartAccepted(worker) => worker in w.releasers && w.releasers[worker].Starting?
    case StartRefused(worker) => worker in w.releasers && w.releasers[worker].Starting?
  }

  function DoAdmit(c: Limits, w: World, job: Job, wellFormed: bool, submittable: bool): World {
    var (s, outcome) := Admit(c, w.s, job, wellFormed, submittable);
    match outcome
    case Immediate => w.(s := s, admitted := w.admitted + [job], launched := w.launched + [job],
          holding := w.holding + multiset{job})
    case Queued(_) => w.(s := s, admitted := w.admitted + [job])
    case _ => w.(s := s)
  }

  function DoAdvance(c: Limits, w: World, worker: nat, cancelAt: nat): World
    requires worker in w.releasers
  {
    var finished := w.releasers[worker].finished;
    var (s, outcome) := AdvanceQueue(c, w.s, finished, cancelAt);
    match outcome
    case Promoted(job) =>
      w.(s := s, releasers := w.releasers[worker := Starting(finished, job)], launched := w.launched + [job],
         holding := w.holding + multiset{job})
    case Nothing => w.(s := s, releasers := w.releasers - {worker})
    case Failed => w.(s := s, releasers := w.releasers - {worker}, disturbed := w.disturbed || cancelAt < LOOKS)
  }

  function Next(c: Limits, w: World, e: Step): World
    requires Enabled(w, e)
  {
    match e
    case AdmitStep(job, wellFormed, submittable) => DoAdmit(c, w, job, wellFormed, submittable)
    case RefuseAdmitted(job) =>
      w.(s := UndoAdmit(w.s, job.id), holding := w.holding - multiset{job}, dropped := w.dropped + multiset{job},
         refusal := true, disturbed := true)
    case Release(worker, finished) => w.(releasers := w.releasers[worker := Advancing(finished)])
    case AdvanceStep(worker, cancelAt) => DoAdvance(c, w, worker, cancelAt)
    case StartAccepted(worker) =>
      w.(s := Commit(w.s, w.releasers[worker].job),
            releasers := w.releasers[worker := Advancing(w.releasers[worker].finished)])
    case StartRefused(worker) =>
      var job := w.releasers[worker].job;
      w.(s := Compensate(w.s, job), releasers := w.releasers - {worker}, holding := w.holding - multiset{job},
         refusal := true, disturbed := true, overlapped := w.overlapped || |w.s.promotions| > 1)
  }

  // ---- invariants ----

  ghost predicate QueueOk(s: Sched) {
    && DistinctIds(s.queue) && PositionsOk(s.queue, s.positions)
    && (forall k :: 0 <= k < |s.queue| ==>
          s.queue[k].queued && s.queue[k].id !in s.active && s.queue[k].id !in s.launching
              && s.queue[k].id !in s.promotions)
  }

  ghost predicate CapsOk(c: Limits, s: Sched) {
    |s.active| <= c.tasks && ImplCount(s.active) <= c.impl && |s.queue| + |s.promotions| <= c.depth
  }

  /** Unresolved promotions are exactly the starts in flight, one worker each. */
  ghost predicate PromotionsOk(w: World) {
    && (forall worker :: worker in w.releasers && w.releasers[worker].Starting? ==>
          w.releasers[worker].job.id in w.s.promotions)
    && (forall worker :: worker in w.releasers && w.releasers[worker].Starting? ==>
          w.releasers[worker].job.queued && w.releasers[worker].job in w.holding)
    && (forall a, b :: a in w.releasers && b in w.releasers && a != b && w.releasers[a].Starting?
          && w.releasers[b].Starting?
          ==> w.releasers[a].job.id != w.releasers[b].job.id)
  }

  /** No job is lost or doubled: each admitted one waits, has a slot, or was dropped on refusal. */
  ghost predicate Conserved(w: World) {
    multiset(w.admitted) == multiset(w.s.queue) + w.holding + w.dropped
  }

  /** Everything the scheduler knows of was admitted under an id of its own. */
  ghost predicate HistoryOk(w: World) {
    && DistinctIds(w.admitted)
    && (forall id :: id in w.s.active || id in w.s.promotions || id in w.s.launching ==> !Fresh(w, id))
  }

  ghost predicate Inv(c: Limits, w: World) {
    QueueOk(w.s) && CapsOk(c, w.s) && PromotionsOk(w) && HistoryOk(w) && Conserved(w)
  }

  predicate Blocked(c: Limits, s: Sched) {
    s.queue == [] || !SlotFree(c, s.active, s.queue[0].impl)
  }

  /** The head cannot be launched: its snapshot would not validate, which is found out only now. */
  predicate Stuck(s: Sched) {
    s.queue != [] && !s.queue[0].snapshotOk
  }

  /** Nobody waits in front of a free slot unless a worker is on its way, the head is stuck, an advance
      was cancelled or a start refused. */
  ghost predicate AwakeOk(c: Limits, w: World) {
    w.disturbed || |w.releasers| > 0 || Blocked(c, w.s) || Stuck(w.s)
  }

  /** A task was admitted before another. */
  predicate Earlier(w: World, a: TaskId, b: TaskId) {
    Find(w.admitted, a) < Find(w.admitted, b)
  }

  /** The queue is in order of admission, and behind every task whose start is undecided. */
  ghost predicate OrderOk(w: World) {
    w.overlapped
    || ((forall i, j :: 0 <= i < j < |w.s.queue| ==> Earlier(w, w.s.queue[i].id, w.s.queue[j].id))
        && (forall worker, k :: worker in w.releasers && w.releasers[worker].Starting? && 0 <= k < |w.s.queue| ==>
              Earlier(w, w.releasers[worker].job.id, w.s.queue[k].id)))
  }

  ghost predicate FifoOk(w: World) {
    w.refusal || w.admitted == w.launched + w.s.queue
  }

  // ---- counting ----

  lemma ImplCountAdd(active: map<TaskId, bool>, id: TaskId, impl: bool)
    ensures |active[id := impl]| <= |active| + 1
    ensures ImplCount(active[id := impl]) <= ImplCount(active) + (if impl then 1 else 0)
  {
    assert active[id := impl].Keys == active.Keys + {id};
    if impl {
      assert ImplIds(active[id := impl]) == ImplIds(active) + {id};
    } else {
      SubsetSize(ImplIds(active[id := impl]), ImplIds(active));
    }
  }

  lemma ImplCountRemove(active: map<TaskId, bool>, id: TaskId)
    ensures |active - {id}| <= |active| && ImplCount(active - {id}) <= ImplCount(active)
  {
    SubsetSize(ImplIds(active - {id}), ImplIds(active));
    SubsetSize((active - {id}).Keys, active.Keys);
  }

  lemma {:induction false} SubsetSize<T>(a: set<T>, b: set<T>)
    requires a <= b
    ensures |a| <= |b|
    decreases |a|
  {
    if a != {} {
      var x :| x in a;
      SubsetSize(a - {x}, b - {x});
    }
  }

  // ---- one step ----

  lemma SlotGiven(c: Limits, s: Sched, job: Job)
    requires CapsOk(c, s) && SlotFree(c, s.active, job.impl)
    ensures |s.active[job.id := job.impl]| <= c.tasks && ImplCount(s.active[job.id := job.impl]) <= c.impl
  {
    ImplCountAdd(s.active, job.id, job.impl);
  }

  lemma AdmittedIds(w: World, job: Job)
    requires Conserved(w) && (job in multiset(w.s.queue) || job in w.holding)
    ensures !Fresh(w, job.id)
  {
    assert job in multiset(w.admitted);
    var k :| 0 <= k < |w.admitted| && w.admitted[k] == job;
  }

  function Launching(w: World, job: Job): World {
    w.(s := w.s.(active := w.s.active[job.id := job.impl], launching := w.s.launching + {job.id},
            positions := w.s.positions[job.id := 1]),
       admitted := w.admitted + [job], launched := w.launched + [job], holding := w.holding + multiset{job})
  }

  function Enqueued(w: World, job: Job): World {
    w.(s := w.s.(queue := w.s.queue + [job], positions := w.s.positions[job.id := |w.s.queue| + 1]),
          admitted := w.admitted + [job])
  }

  /** The three things an admission can come to. */
  lemma AdmitCases(c: Limits, w: World, job: Job, wellFormed: bool, submittable: bool)
    ensures var w' := DoAdmit(c, w, job, wellFormed, submittable);
            || w' == w
            || (w.s.queue == [] && SlotFree(c, w.s.active, job.impl) && w' == Launching(w, job))
            || (|w.s.queue| + |w.s.promotions| < c.depth
                  && (w.s.queue == [] ==> !SlotFree(c, w.s.active, job.impl)) && w' == Enqueued(w, job))
  {
  }

  lemma AppendedConserved(w: World, job: Job)
    requires Conserved(w)
    ensures Conserved(Launching(w, job)) && Conserved(Enqueued(w, job))
  {
    assert multiset(w.admitted + [job]) == multiset(w.admitted) + multiset{job};
    assert multiset(w.s.queue + [job]) == multiset(w.s.queue) + multiset{job};
  }

  lemma LaunchedInv(c: Limits, w: World, job: Job)
    requires Inv(c, w) && job.queued && Fresh(w, job.id) && w.s.queue == [] && SlotFree(c, w.s.active, job.impl)
    ensures Inv(c, Launching(w, job))
  {
    FreshAppends(w, job);
    SlotGiven(c, w.s, job);
    AppendedConserved(w, job);
  }

  lemma EnqueuedQueueOk(w: World, job: Job)
    requires QueueOk(w.s) && Conserved(w) && HistoryOk(w) && job.queued && Fresh(w, job.id)
    ensures QueueOk(Enqueued(w, job).s)
  {
    forall k | 0 <= k < |w.s.queue|
      ensures w.s.queue[k].id != job.id
    {
      assert w.s.queue[k] in multiset(w.s.queue);
      AdmittedIds(w, w.s.queue[k]);
    }
  }

  lemma EnqueuedInv(c: Limits, w: World, job: Job)
    requires Inv(c, w) && job.queued && Fresh(w, job.id) && |w.s.queue| + |w.s.promotions| < c.depth
    ensures Inv(c, Enqueued(w, job))
  {
    FreshAppends(w, job);
    EnqueuedQueueOk(w, job);
    AppendedConserved(w, job);
  }

  lemma AdmitInv(c: Limits, w: World, job: Job, wellFormed: bool, submittable: bool)
    requires Inv(c, w) && job.queued && Fresh(w, job.id)
    ensures Inv(c, DoAdmit(c, w, job, wellFormed, submittable))
  {
    AdmitCases(c, w, job, wellFormed, submittable);
    var w' := DoAdmit(c, w, job, wellFormed, submittable);
    if w' == Launching(w, job) && w.s.queue == [] && SlotFree(c, w.s.active, job.impl) {
      LaunchedInv(c, w, job);
    } else if w' != w {
      EnqueuedInv(c, w, job);
    }
  }

  lemma FreshAppends(w: World, job: Job)
    requires DistinctIds(w.admitted) && Fresh(w, job.id)
    ensures DistinctIds(w.admitted + [job])
    ensures forall id :: !Fresh(w, id) ==> !Fresh(w.(admitted := w.admitted + [job]), id)
    ensures !Fresh(w.(admitted := w.admitted + [job]), job.id)
  {
    var all := w.admitted + [job];
    assert all[|w.admitted|] == job;
    forall id | !Fresh(w, id)
      ensures !Fresh(w.(admitted := all), id)
    {
      var k :| 0 <= k < |w.admitted| && w.admitted[k].id == id;
      assert all[k].id == id;
    }
  }

  /** The part of advancing every outcome shares: the finished task's slot is gone. */
  lemma ReleasedInv(c: Limits, w: World, finished: TaskId)
    requires Inv(c, w)
    ensures Inv(c, w.(s := w.s.(active := w.s.active - {finished})))
  {
    ImplCountRemove(w.s.active, finished);
  }

  function Leaving(w: World, worker: nat, failed: bool): World {
    w.(releasers := w.releasers - {worker}, disturbed := w.disturbed || failed)
  }

  /** Losing a worker that holds no promotion. */
  lemma LeavingInv(c: Limits, w: World, worker: nat, failed: bool)
    requires Inv(c, w) && worker in w.releasers && w.releasers[worker].Advancing?
    ensures Inv(c, Leaving(w, worker, failed))
  {
  }

  lemma UnreservedSame(c: Limits, s: Sched)
    requires QueueOk(s) && s.queue != []
    ensures Unreserved(s) == s && Unpromoted(s) == s
  {
    ReindexStable(s.queue, s.positions);
    assert s.queue[0].id !in s.active && s.queue[0].id !in s.launching;
    assert s.active - {s.queue[0].id} == s.active;
    assert s.launching - {s.queue[0].id} == s.launching;
  }

  lemma PromoteQueueOk(s: Sched)
    requires QueueOk(s) && s.queue != []
    ensures QueueOk(Promote(s))
  {
    var q := s.queue[1..];
    assert forall k :: 0 <= k < |q| ==> q[k] == s.queue[k + 1];
    ReindexOk(q, s.positions);
  }

  function Promoting(w: World, worker: nat): World
    requires worker in w.releasers && w.s.queue != []
  {
    var job := w.s.queue[0];
    w.(s := Promote(w.s), releasers := w.releasers[worker := Starting(w.releasers[worker].finished, job)],
       launched := w.launched + [job], holding := w.holding + multiset{job})
  }

  lemma PromoteConserved(w: World, worker: nat)
    requires Conserved(w) && worker in w.releasers && w.s.queue != []
    ensures Conserved(Promoting(w, worker))
  {
    assert w.s.queue == [w.s.queue[0]] + w.s.queue[1..];
  }

  lemma PromoteHistory(w: World, worker: nat)
    requires Conserved(w) && HistoryOk(w) && worker in w.releasers && w.s.queue != []
    ensures HistoryOk(Promoting(w, worker))
  {
    assert w.s.queue[0] in multiset(w.s.queue);
    AdmittedIds(w, w.s.queue[0]);
  }

  lemma PromotePromotions(w: World, worker: nat)
    requires PromotionsOk(w) && QueueOk(w.s) && worker in w.releasers && w.releasers[worker].Advancing?
    requires w.s.queue != []
    ensures PromotionsOk(Promoting(w, worker))
  {
    assert w.s.queue[0].queued && w.s.queue[0].id !in w.s.promotions;
  }

  lemma PromoteCaps(c: Limits, s: Sched)
    requires CapsOk(c, s) && s.queue != [] && SlotFree(c, s.active, s.queue[0].impl)
    ensures CapsOk(c, Promote(s))
  {
    SlotGiven(c, s, s.queue[0]);
  }

  lemma PromoteInv(c: Limits, w: World, worker: nat)
    requires Inv(c, w) && worker in w.releasers && w.releasers[worker].Advancing?
    requires w.s.queue != [] && SlotFree(c, w.s.active, w.s.queue[0].impl)
    ensures Inv(c, Promoting(w, worker))
  {
    PromoteQueueOk(w.s);
    PromoteCaps(c, w.s);
    PromotePromotions(w, worker);
    PromoteHistory(w, worker);
    PromoteConserved(w, worker);
  }

  function Released(w: World, worker: nat): World
    requires worker in w.releasers
  {
    w.(s := w.s.(active := w.s.active - {w.releasers[worker].finished}))
  }

  /** Why an advance fails: cancelled, or a head that has left the queued state, or one that is stuck. */
  predicate Fails(c: Limits, s: Sched, cancelAt: nat) {
    || cancelAt <= 2
    || (s.queue != []
          && (!s.queue[0].queued
                || (SlotFree(c, s.active, s.queue[0].impl) && (cancelAt < LOOKS || !s.queue[0].snapshotOk))))
  }

  /** The five things an advance can come to, and exactly when it fails. Every failure after the slot was
      released leaves the scheduler as a mere release would, but that a head no longer queued is dropped. */
  lemma AdvanceQueueCases(c: Limits, s: Sched, finished: TaskId, cancelAt: nat)
    requires var s1 := s.(active := s.active - {finished}); s1.queue != [] && s1.queue[0].queued ==> QueueOk(s1)
    ensures var r := AdvanceQueue(c, s, finished, cancelAt);
            var s1 := s.(active := s.active - {finished});
            && (r.1.Failed? <==> Fails(c, s1, cancelAt))
            && (|| r == (s, Failed)
                || r == (s1, Failed)
                || (s1.queue != [] && !s1.queue[0].queued && r == (s1.(queue := s1.queue[1..]), Failed))
                || (Blocked(c, s1) && r == (s1, Nothing))
                || (s1.queue != [] && SlotFree(c, s1.active, s1.queue[0].impl)
                      && r == (Promote(s1), Promoted(s1.queue[0]))))
  {
    var s1 := s.(active := s.active - {finished});
    if s1.queue != [] && s1.queue[0].queued {
      UnreservedSame(c, s1);
    }
  }

  /** Dropping a head that is no longer queued does not renumber: the others keep a position one too high. */
  lemma DroppedHeadPositions(c: Limits, s: Sched, finished: TaskId, cancelAt: nat)
    requires DistinctIds(s.queue) && PositionsOk(s.queue, s.positions) && s.queue != [] && !s.queue[0].queued
    requires cancelAt >= 3
    ensures var s' := AdvanceQueue(c, s, finished, cancelAt).0;
            s'.queue == s.queue[1..] && forall k :: 0 <= k < |s'.queue| ==> s'.positions[s'.queue[k].id] == k + 2
  {
    var q := s.queue[1..];
    assert forall k :: 0 <= k < |q| ==> q[k] == s.queue[k + 1];
  }

  lemma AdvanceCases(c: Limits, w: World, worker: nat, cancelAt: nat)
    requires worker in w.releasers && QueueOk(Released(w, worker).s) && w.releasers[worker].Advancing?
    ensures var w' := DoAdvance(c, w, worker, cancelAt);
            var w1 := Released(w, worker);
            || (cancelAt < LOOKS && w' == Leaving(w, worker, true))
            || ((cancelAt < LOOKS || Stuck(w1.s)) && w' == Leaving(w1, worker, cancelAt < LOOKS))
            || (Blocked(c, w1.s) && w' == Leaving(w1, worker, false))
            || (w1.s.queue != [] && SlotFree(c, w1.s.active, w1.s.queue[0].impl) && w' == Promoting(w1, worker))
  {
    AdvanceQueueCases(c, w.s, w.releasers[worker].finished, cancelAt);
    if w.s.queue != [] {
      assert w.s.queue[0].queued;
    }
  }

  lemma AdvanceInv(c: Limits, w: World, worker: nat, cancelAt: nat)
    requires Inv(c, w) && worker in w.releasers && w.releasers[worker].Advancing?
    ensures Inv(c, DoAdvance(c, w, worker, cancelAt))
  {
    var w1 := Released(w, worker);
    ReleasedInv(c, w, w.releasers[worker].finished);
    AdvanceCases(c, w, worker, cancelAt);
    LeavingInv(c, w, worker, true);
    LeavingInv(c, w1, worker, cancelAt < LOOKS);
    LeavingInv(c, w1, worker, false);
    if w1.s.queue != [] && SlotFree(c, w1.s.active, w1.s.queue[0].impl) {
      PromoteInv(c, w1, worker);
    }
  }

  lemma CompensateQueueOk(s: Sched, job: Job)
    requires QueueOk(s) && job.id in s.promotions && job.queued
    ensures QueueOk(Compensate(s, job))
  {
    var q := [job] + s.queue;
    assert forall k :: 0 < k < |q| ==> q[k] == s.queue[k - 1];
    assert DistinctIds(q);
    ReindexOk(q, s.positions);
  }

  lemma RefusedPromotions(c: Limits, w: World, worker: nat)
    requires PromotionsOk(w) && worker in w.releasers && w.releasers[worker].Starting?
    ensures PromotionsOk(Next(c, w, StartRefused(worker)))
  {
  }

  lemma RefusedConserved(c: Limits, w: World, worker: nat)
    requires PromotionsOk(w) && Conserved(w) && worker in w.releasers && w.releasers[worker].Starting?
    ensures Conserved(Next(c, w, StartRefused(worker)))
  {
    var job := w.releasers[worker].job;
    assert multiset([job] + w.s.queue) == multiset{job} + multiset(w.s.queue);
  }

  lemma RefusedInv(c: Limits, w: World, worker: nat)
    requires Inv(c, w) && worker in w.releasers && w.releasers[worker].Starting?
    ensures Inv(c, Next(c, w, StartRefused(worker)))
  {
    CompensateQueueOk(w.s, w.releasers[worker].job);
    ImplCountRemove(w.s.active, w.releasers[worker].job.id);
    RefusedPromotions(c, w, worker);
    RefusedConserved(c, w, worker);
  }

  lemma DroppedInv(c: Limits, w: World, job: Job)
    requires Inv(c, w) && job in w.holding && job.id !in w.s.promotions
    ensures Inv(c, Next(c, w, RefuseAdmitted(job)))
  {
    ImplCountRemove(w.s.active, job.id);
  }

  lemma AcceptedInv(c: Limits, w: World, worker: nat)
    requires Inv(c, w) && worker in w.releasers && w.releasers[worker].Starting?
    ensures Inv(c, Next(c, w, StartAccepted(worker)))
  {
  }

  lemma NextInv(c: Limits, w: World, e: Step)
    requires Inv(c, w) && Enabled(w, e)
    ensures Inv(c, Next(c, w, e))
  {
    match e
    case AdmitStep(job, wellFormed, submittable) => AdmitInv(c, w, job, wellFormed, submittable);
    case RefuseAdmitted(job) => DroppedInv(c, w, job);
    case Release(worker, finished) =>
    case AdvanceStep(worker, cancelAt) => AdvanceInv(c, w, worker, cancelAt);
    case StartAccepted(worker) => AcceptedInv(c, w, worker);
    case StartRefused(worker) => RefusedInv(c, w, worker);
  }

  lemma PromoteFifo(w: World, worker: nat)
    requires FifoOk(w) && worker in w.releasers && w.s.queue != []
    ensures FifoOk(Promoting(w, worker))
  {
    assert w.launched + w.s.queue == w.launched + [w.s.queue[0]] + w.s.queue[1..];
  }

  lemma AdvanceFifo(c: Limits, w: World, worker: nat, cancelAt: nat)
    requires QueueOk(w.s) && FifoOk(w) && worker in w.releasers && w.releasers[worker].Advancing?
    ensures FifoOk(DoAdvance(c, w, worker, cancelAt))
  {
    var w1 := Released(w, worker);
    AdvanceCases(c, w, worker, cancelAt);
    if w1.s.queue != [] {
      PromoteFifo(w1, worker);
    }
  }

  lemma AdvanceAwake(c: Limits, w: World, worker: nat, cancelAt: nat)
    requires QueueOk(w.s) && worker in w.releasers && w.releasers[worker].Advancing?
    ensures AwakeOk(c, DoAdvance(c, w, worker, cancelAt))
  {
    AdvanceCases(c, w, worker, cancelAt);
    var w1 := Released(w, worker);
    if w1.s.queue != [] {
      assert worker in Promoting(w1, worker).releasers;
    }
  }

  lemma AdmitAwakeFifo(c: Limits, w: World, job: Job, wellFormed: bool, submittable: bool)
    requires AwakeOk(c, w)
    ensures AwakeOk(c, DoAdmit(c, w, job, wellFormed, submittable))
    ensures FifoOk(w) ==> FifoOk(DoAdmit(c, w, job, wellFormed, submittable))
  {
    AdmitCases(c, w, job, wellFormed, submittable);
    assert w.launched + w.s.queue + [job] == w.launched + (w.s.queue + [job]);
    assert w.s.queue == [] ==>
        w.launched + w.s.queue == w.launched && w.launched + [job] + w.s.queue == w.launched + [job];
  }

  lemma NextAwakeFifo(c: Limits, w: World, e: Step)
    requires Inv(c, w) && AwakeOk(c, w) && FifoOk(w) && Enabled(w, e)
    ensures AwakeOk(c, Next(c, w, e)) && FifoOk(Next(c, w, e))
  {
    match e
    case AdmitStep(job, wellFormed, submittable) => AdmitAwakeFifo(c, w, job, wellFormed, submittable);
    case RefuseAdmitted(job) =>
    case Release(worker, finished) => assert worker in Next(c, w, e).releasers;
    case AdvanceStep(worker, cancelAt) =>
      AdvanceAwake(c, w, worker, cancelAt);
      AdvanceFifo(c, w, worker, cancelAt);
    case StartAccepted(worker) => assert worker in Next(c, w, e).releasers;
    case StartRefused(worker) =>
  }

  // ---- order under refusals ----

  lemma {:induction false} FindAppend(all: seq<Job>, job: Job, id: TaskId)
    ensures Find(all + [job], id) ==
              if Find(all, id) < |all| then Find(all, id) else if job.id == id then |all| else |all| + 1
    decreases |all|
  {
    if all != [] {
      assert (all + [job])[1..] == all[1..] + [job];
      FindAppend(all[1..], job, id);
    }
  }

  lemma FoundIfAdmitted(w: World, id: TaskId)
    ensures Find(w.admitted, id) < |w.admitted| <==> !Fresh(w, id)
  {
  }

  /** Admitting a new task changes no earlier comparison and puts it behind all. */
  lemma EarlierStays(w: World, n: World, job: Job, a: TaskId, b: TaskId)
    requires n.admitted == w.admitted + [job] && Fresh(w, job.id) && !Fresh(w, a)
    ensures !Fresh(w, b) ==> (Earlier(n, a, b) <==> Earlier(w, a, b))
    ensures Earlier(n, a, job.id)
  {
    FindAppend(w.admitted, job, a);
    FindAppend(w.admitted, job, b);
    FindAppend(w.admitted, job, job.id);
    FoundIfAdmitted(w, a);
    FoundIfAdmitted(w, b);
    FoundIfAdmitted(w, job.id);
  }

  lemma EnqueuedOrder(c: Limits, w: World, job: Job)
    requires Inv(c, w) && OrderOk(w) && Fresh(w, job.id)
    ensures OrderOk(Enqueued(w, job))
  {
    var n := Enqueued(w, job);
    if !w.overlapped {
      forall i, j | 0 <= i < j < |n.s.queue| ensures Earlier(n, n.s.queue[i].id, n.s.queue[j].id) {
        AdmittedIds(w, w.s.queue[i]);
        if j < |w.s.queue| {
          AdmittedIds(w, w.s.queue[j]);
        }
        EarlierStays(w, n, job, w.s.queue[i].id, n.s.queue[j].id);
      }
      forall worker, k | worker in n.releasers && n.releasers[worker].Starting? && 0 <= k < |n.s.queue|
        ensures Earlier(n, n.releasers[worker].job.id, n.s.queue[k].id)
      {
        AdmittedIds(w, w.releasers[worker].job);
        if k < |w.s.queue| {
          AdmittedIds(w, w.s.queue[k]);
        }
        EarlierStays(w, n, job, w.releasers[worker].job.id, n.s.queue[k].id);
      }
    }
  }

  lemma PromotedOrder(w: World, worker: nat)
    requires OrderOk(w) && worker in w.releasers && w.s.queue != []
    ensures OrderOk(Promoting(w, worker))
  {
    var n := Promoting(w, worker);
    if !w.overlapped {
      assert forall k :: 0 <= k < |n.s.queue| ==> n.s.queue[k] == w.s.queue[k + 1];
      forall worker', k | worker' in n.releasers && n.releasers[worker'].Starting? && 0 <= k < |n.s.queue|
        ensures Earlier(n, n.releasers[worker'].job.id, n.s.queue[k].id)
      {
        assert n.releasers[worker'].job == if worker' == worker then w.s.queue[0] else w.releasers[worker'].job;
        assert Earlier(w, n.releasers[worker'].job.id, w.s.queue[k + 1].id);
      }
    }
  }

  /** The only undecided start, refused, goes back to the front where it belongs. */
  lemma RefusedOrder(c: Limits, w: World, worker: nat)
    requires Inv(c, w) && OrderOk(w) && worker in w.releasers && w.releasers[worker].Starting?
    ensures OrderOk(Next(c, w, StartRefused(worker)))
  {
    var n := Next(c, w, StartRefused(worker));
    if !n.overlapped {
      var job := w.releasers[worker].job;
      assert w.s.promotions == {job.id} by {
        OnlyMember(w.s.promotions, job.id);
      }
      forall other | other in n.releasers ensures !n.releasers[other].Starting? {
        OnlyOneStarting(w, worker, other);
      }
      assert forall k :: 0 < k < |n.s.queue| ==> n.s.queue[k] == w.s.queue[k - 1];
    }
  }

  lemma OnlyOneStarting(w: World, worker: nat, other: nat)
    requires PromotionsOk(w) && worker in w.releasers && other in w.releasers && worker != other
    requires w.releasers[worker].Starting? && w.s.promotions == {w.releasers[worker].job.id}
    ensures !w.releasers[other].Starting?
  {
  }

  lemma OnlyMember(a: set<TaskId>, id: TaskId)
    requires id in a && |a| <= 1
    ensures a == {id}
  {
    var rest := a - {id};
    assert |rest| == |a| - 1;
    assert rest == {};
  }

  lemma AdmitOrder(c: Limits, w: World, job: Job, wellFormed: bool, submittable: bool)
    requires Inv(c, w) && OrderOk(w) && Fresh(w, job.id)
    ensures OrderOk(DoAdmit(c, w, job, wellFormed, submittable))
  {
    AdmitCases(c, w, job, wellFormed, submittable);
    EnqueuedOrder(c, w, job);
  }

  /** Steps that leave the queue alone and start nothing. */
  lemma OrderKept(w: World, n: World)
    requires OrderOk(w) && n.admitted == w.admitted && n.s.queue == w.s.queue && n.overlapped == w.overlapped
    requires forall worker :: worker in n.releasers && n.releasers[worker].Starting? ==>
               worker in w.releasers && n.releasers[worker] == w.releasers[worker]
    ensures OrderOk(n)
  {
    forall worker, k | worker in n.releasers && n.releasers[worker].Starting? && 0 <= k < |n.s.queue| && !n.overlapped
      ensures Earlier(n, n.releasers[worker].job.id, n.s.queue[k].id)
    {
      assert Earlier(w, w.releasers[worker].job.id, w.s.queue[k].id);
    }
    forall i, j | 0 <= i < j < |n.s.queue| && !n.overlapped ensures Earlier(n, n.s.queue[i].id, n.s.queue[j].id) {
      assert Earlier(w, w.s.queue[i].id, w.s.queue[j].id);
    }
  }

  lemma AdvanceOrder(c: Limits, w: World, worker: nat, cancelAt: nat)
    requires Inv(c, w) && OrderOk(w) && worker in w.releasers && w.releasers[worker].Advancing?
    ensures OrderOk(DoAdvance(c, w, worker, cancelAt))
  {
    var w1 := Released(w, worker);
    OrderKept(w, w1);
    AdvanceCases(c, w, worker, cancelAt);
    if DoAdvance(c, w, worker, cancelAt).launched == w.launched {
      OrderKept(w, DoAdvance(c, w, worker, cancelAt));
    } else {
      PromotedOrder(w1, worker);
    }
  }

  lemma NextOrder(c: Limits, w: World, e: Step)
    requires Inv(c, w) && OrderOk(w) && Enabled(w, e)
    ensures OrderOk(Next(c, w, e))
  {
    match e
    case AdmitStep(job, wellFormed, submittable) => AdmitOrder(c, w, job, wellFormed, submittable);
    case AdvanceStep(worker, cancelAt) => AdvanceOrder(c, w, worker, cancelAt);
    case StartRefused(worker) => RefusedOrder(c, w, worker);
    case _ => OrderKept(w, Next(c, w, e));
  }

  // ---- runs ----

  ghost predicate Path(c: Limits, trace: seq<World>, steps: seq<Step>) {
    && |trace| == |steps| + 1
    && forall i :: 0 <= i < |steps| ==> Enabled(trace[i], steps[i]) && trace[i + 1] == Next(c, trace[i], steps[i])
  }

  ghost predicate Run(c: Limits, trace: seq<World>, steps: seq<Step>) {
    Path(c, trace, steps) && trace[0] == INITIAL
  }

  ghost predicate Good(c: Limits, w: World) {
    Inv(c, w) && AwakeOk(c, w) && FifoOk(w) && OrderOk(w)
  }

  lemma NextGood(c: Limits, w: World, e: Step)
    requires Good(c, w) && Enabled(w, e)
    ensures Good(c, Next(c, w, e))
  {
    NextInv(c, w, e);
    NextAwakeFifo(c, w, e);
    NextOrder(c, w, e);
  }

  /** Over every run, at every point: capacity is respected, each queued task's stored position is its
      index plus one, no job is lost or doubled, nobody sleeps in front of a free slot unless a worker
      is on its way, the head's snapshot does not validate, or an advance was cancelled or a start refused;
      unless a start was refused jobs get slots in the order they were admitted, and unless one was
      refused while another was undecided the queue stays in that order. */
  lemma {:induction false} EveryRun(c: Limits, trace: seq<World>, steps: seq<Step>, i: nat)
    requires Run(c, trace, steps) && i < |trace|
    ensures Good(c, trace[i])
  {
    if i > 0 {
      EveryRun(c, trace, steps, i - 1);
      NextGood(c, trace[i - 1], steps[i - 1]);
    }
  }

  // ---- compensation ----

  /** Taking back a promotion just made restores queue, positions, slots and launching registrations
      exactly, and taking it back twice is taking it back once. */
  lemma CompensateUndoes(s: Sched)
    requires QueueOk(s) && s.queue != []
    ensures Compensate(Promote(s), s.queue[0]) == s
    ensures Compensate(Compensate(Promote(s), s.queue[0]), s.queue[0]) == s
  {
    var job, q := s.queue[0], s.queue[1..];
    var p := Promote(s);
    assert [job] + q == s.queue && job.id !in s.active && job.id !in s.launching && job.id !in s.promotions;
    assert forall k :: 0 <= k < |q| ==> q[k] == s.queue[k + 1];
    RepositionBack(s.queue, q, s.positions);
    assert p.active - {job.id} == s.active;
    assert Compensate(p, job) == s;
  }

  /** Numbering part of a queue and then the whole gives the numbers of the whole. */
  lemma RepositionBack(q: seq<Job>, part: seq<Job>, positions: map<TaskId, nat>)
    requires DistinctIds(q) && PositionsOk(q, positions)
    requires DistinctIds(part) && Ids(part) <= Ids(q)
    ensures Reindexed(q, 0, Reindexed(part, 0, positions)) == positions
  {
    var mid := Reindexed(part, 0, positions);
    PartKeeps(q, part, positions);
    ReindexOk(q, mid);
    var p := Reindexed(q, 0, mid);
    forall id
      ensures (id in p <==> id in positions) && (id in p ==> p[id] == positions[id])
    {
      if id in Ids(q) {
        SameNumber(q, p, positions, id);
      }
    }
  }

  lemma PartKeeps(q: seq<Job>, part: seq<Job>, positions: map<TaskId, nat>)
    requires DistinctIds(part) && Ids(part) <= Ids(q)
    ensures var mid := Reindexed(part, 0, positions);
            forall id :: id !in Ids(q) ==> (id in mid <==> id in positions) && (id in mid ==> mid[id] == positions[id])
  {
    ReindexOk(part, positions);
  }

  lemma SameNumber(q: seq<Job>, p: map<TaskId, nat>, p': map<TaskId, nat>, id: TaskId)
    requires PositionsOk(q, p) && PositionsOk(q, p') && id in Ids(q)
    ensures id in p && id in p' && p[id] == p'[id]
  {
    var k :| 0 <= k < |q| && q[k].id == id;
  }
}
