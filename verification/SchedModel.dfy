/** Admission scheduling as atomic steps, one per critical section of the queue mutex
    (internal/execution/queue.go, registry.go, promotion.go; usecase/admit.go, advance.go). */
module SchedModel {

  /** Only equality of task ids matters. */
  type TaskId = nat

  /** A launch payload: which task, whether it counts against the impl limit, whether its task is
      still in the queued state, and whether its admission snapshot would validate. */
  datatype Job = Job(id: TaskId, impl: bool, queued: bool, snapshotOk: bool)

  datatype Limits = Limits(tasks: nat, impl: nat, depth: nat)

  /** The waiting queue with each task's stored position, slot reservations (true for impl),
      launching registrations and unresolved promotions. */
  datatype Sched = Sched(queue: seq<Job>, positions: map<TaskId, nat>, active: map<TaskId, bool>,
                         launching: set<TaskId>, promotions: set<TaskId>)

  const EMPTY: Sched := Sched([], map[], map[], {}, {})

  // ---- queue ----

  /** Rewrites stored positions from index k on. */
  function Reindexed(q: seq<Job>, k: nat, positions: map<TaskId, nat>): map<TaskId, nat>
    requires k <= |q|
    decreases |q| - k
  {
    if k == |q| then positions else Reindexed(q, k + 1, positions[q[k].id := k + 1])
  }

  predicate DistinctIds(q: seq<Job>) {
    forall i, j :: 0 <= i < j < |q| ==> q[i].id != q[j].id
  }

  predicate PositionsOk(q: seq<Job>, positions: map<TaskId, nat>) {
    forall k :: 0 <= k < |q| ==> q[k].id in positions && positions[q[k].id] == k + 1
  }

  function Ids(q: seq<Job>): set<TaskId> {
    set k | 0 <= k < |q| :: q[k].id
  }

  /** Index of the first payload of a task, or the length. */
  function Find(q: seq<Job>, id: TaskId): (k: nat)
    ensures k <= |q| && (k < |q| ==> q[k].id == id) && forall i :: 0 <= i < k ==> q[i].id != id
  {
    if q == [] then 0 else if q[0].id == id then 0 else Find(q[1..], id) + 1
  }

  // ---- registry ----

  function ImplIds(active: map<TaskId, bool>): (ids: set<TaskId>)
    ensures forall id :: id in ids <==> id in active && active[id]
  {
    set id | id in active && active[id]
  }

  function ImplCount(active: map<TaskId, bool>): nat {
    |ImplIds(active)|
  }

  predicate SlotFree(c: Limits, active: map<TaskId, bool>, impl: bool) {
    |active| < c.tasks && (!impl || ImplCount(active) < c.impl)
  }

  // ---- admission ----

  datatype Admission = Immediate | Queued(position: nat) | QueueFull | Refused

  /** wellFormed: the input passes validation; submittable: a task can be built from it. */
  function Admit(c: Limits, s: Sched, job: Job, wellFormed: bool, submittable: bool): (r: (Sched, Admission)) {
    if !wellFormed then (s, Refused)
    else
      var immediate := SlotFree(c, s.active, job.impl) && s.queue == [];
      if !immediate && |s.queue| + |s.promotions| >= c.depth then (s, QueueFull)
      else if !submittable then (s, Refused)
      else if immediate then
        if !job.snapshotOk then (s, Refused)
        else (s.(active := s.active[job.id := job.impl], launching := s.launching + {job.id},
                 positions := s.positions[job.id := 1]), Immediate)
      else (s.(queue := s.queue + [job], positions := s.positions[job.id := |s.queue| + 1]), Queued(|s.queue| + 1))
  }

  /** Gives an immediate reservation back after its start was refused. */
  function UndoAdmit(s: Sched, id: TaskId): Sched {
    s.(launching := s.launching - {id}, active := s.active - {id})
  }

  // ---- advancing ----

  datatype Advance = Promoted(job: Job) | Nothing | Failed

  /** Cancellation is looked at six times; it is seen from look number `cancelAt` on. */
  const LOOKS: nat := 6

  function Promote(s: Sched): (s': Sched)
    requires s.queue != []
  {
    var job := s.queue[0];
    s.(queue := s.queue[1..], active := s.active[job.id := job.impl], launching := s.launching + {job.id},
       promotions := s.promotions + {job.id}, positions := Reindexed(s.queue[1..], 0, s.positions))
  }

  /** Puts the head back after a late cancellation: everything but the stored positions as before. */
  function Unpromoted(s: Sched): (s': Sched)
    requires s.queue != []
  {
    var job := s.queue[0];
    s.(active := s.active - {job.id}, launching := s.launching - {job.id},
          positions := Reindexed(s.queue, 0, s.positions))
  }

  /** The same before the launching registry was touched. */
  function Unreserved(s: Sched): (s': Sched)
    requires s.queue != []
  {
    s.(active := s.active - {s.queue[0].id}, positions := Reindexed(s.queue, 0, s.positions))
  }

  function AdvanceQueue(c: Limits, s: Sched, finished: TaskId, cancelAt: nat): (r: (Sched, Advance)) {
    if cancelAt <= 1 then (s, Failed)
    else
      var s1 := s.(active := s.active - {finished});
      if cancelAt == 2 then (s1, Failed)
      else if s1.queue == [] then (s1, Nothing)
      else
        var job := s1.queue[0];
        if !job.queued then (s1.(queue := s1.queue[1..]), Failed)
        else if !SlotFree(c, s1.active, job.impl) then (s1, Nothing)
        else if cancelAt == 3 || !job.snapshotOk then (s1, Failed)
        else if cancelAt == 4 then (Unreserved(s1), Failed)
        else if cancelAt == 5 then (Unpromoted(s1), Failed)
        else (Promote(s1), Promoted(job))
  }

  /** Takes an unresolved promotion back; anything else is left alone. */
  function Compensate(s: Sched, job: Job): (s': Sched) {
    if job.id !in s.promotions then s
    else
      var q := [job] + s.queue;
      s.(promotions := s.promotions - {job.id}, launching := s.launching - {job.id}, active := s.active - {job.id},
         queue := q, positions := Reindexed(q, 0, s.positions))
  }

  function Commit(s: Sched, job: Job): (s': Sched) {
    s.(promotions := s.promotions - {job.id})
  }

  // ---- what reindexing does ----

  lemma {:induction false} ReindexedFrom(q: seq<Job>, k: nat, positions: map<TaskId, nat>)
    requires k <= |q| && DistinctIds(q)
    ensures var p := Reindexed(q, k, positions);
            && (forall i :: k <= i < |q| ==> q[i].id in p && p[q[i].id] == i + 1)
            && (forall id :: id !in Ids(q[k..]) ==>
                  (id in p <==> id in positions) && (id in p ==> p[id] == positions[id]))
    decreases |q| - k
  {
    if k < |q| {
      var next := positions[q[k].id := k + 1];
      ReindexedFrom(q, k + 1, next);
      assert q[k].id !in Ids(q[k + 1..]);
      forall id | id in Ids(q[k + 1..])
        ensures id in Ids(q[k..])
      {
        var i :| 0 <= i < |q[k + 1..]| && q[k + 1..][i].id == id;
        assert q[k..][i + 1].id == id;
      }
      assert q[k].id == q[k..][0].id;
    }
  }

  lemma ReindexOk(q: seq<Job>, positions: map<TaskId, nat>)
    requires DistinctIds(q)
    ensures PositionsOk(q, Reindexed(q, 0, positions))
    ensures forall id :: id !in Ids(q) ==> (id in Reindexed(q, 0, positions) <==> id in positions)
    ensures forall id :: id !in Ids(q) && id in positions ==> Reindexed(q, 0, positions)[id] == positions[id]
  {
    ReindexedFrom(q, 0, positions);
    assert q[0..] == q;
  }

  /** Positions that are right stay as they are. */
  lemma ReindexStable(q: seq<Job>, positions: map<TaskId, nat>)
    requires DistinctIds(q) && PositionsOk(q, positions)
    ensures Reindexed(q, 0, positions) == positions
  {
    ReindexOk(q, positions);
    var p := Reindexed(q, 0, positions);
    forall id
      ensures id in p <==> id in positions
      ensures id in p ==> p[id] == positions[id]
    {
      if id in Ids(q) {
        var k :| 0 <= k < |q| && q[k].id == id;
        assert q[k].id in p && q[k].id in positions;
      }
    }
  }
}
