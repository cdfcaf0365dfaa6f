/** The scheduler's objects, updated in place: the payload queue, the registries and the release loop
    (internal/execution/queue.go, registry.go, promotion.go; usecase/admit.go, advance.go, slotreleaser.go). */
module Scheduler {
  import opened SchedModel
  import opened SchedRuns
  import opened Options

  function RemoveAt(q: seq<Job>, k: nat): seq<Job>
    requires k < |q|
  {
    q[..k] + q[k + 1..]
  }

  function InsertAt(q: seq<Job>, k: nat, job: Job): seq<Job>
    requires k <= |q|
  {
    q[..k] + [job] + q[k..]
  }

  /** Restoring what was removed, where it was, gives back the queue and every stored position. */
  lemma RemoveRestore(q: seq<Job>, positions: map<TaskId, nat>, k: nat)
    requires k < |q| && DistinctIds(q) && PositionsOk(q, positions)
    ensures InsertAt(RemoveAt(q, k), k, q[k]) == q
    ensures Reindexed(q, 0, Reindexed(RemoveAt(q, k), 0, positions)) == positions
  {
    RemovedPart(q, k);
    RepositionBack(q, RemoveAt(q, k), positions);
  }

  lemma RemovedPart(q: seq<Job>, k: nat)
    requires k < |q| && DistinctIds(q)
    ensures DistinctIds(RemoveAt(q, k)) && Ids(RemoveAt(q, k)) <= Ids(q)
  {
    var rest := RemoveAt(q, k);
    assert forall i :: 0 <= i < |rest| ==> rest[i] == if i < k then q[i] else q[i + 1];
  }

  class TaskQueue {
    var payloads: seq<Job>
    var positions: map<TaskId, nat>

    constructor ()
      ensures payloads == [] && positions == map[]
    {
      payloads, positions := [], map[];
    }

    /** Appends and reports the one-based position. */
    method Enqueue(job: Job) returns (position: nat)
      requires job.queued
      modifies `payloads
      ensures payloads == old(payloads) + [job] && position == |payloads|
    {
      payloads := payloads + [job];
      position := |payloads|;
    }

    method Dequeue() returns (head: Option<Job>)
      modifies `payloads
      ensures old(payloads) == [] ==> head == None && payloads == []
      ensures old(payloads) != [] ==> head == Some(old(payloads)[0]) && payloads == old(payloads)[1..]
    {
      if payloads == [] {
        return None;
      }
      head := Some(payloads[0]);
      payloads := payloads[1..];
    }

    method Prepend(job: Job)
      requires job.queued
      modifies `payloads
      ensures payloads == [job] + old(payloads)
    {
      payloads := [job] + payloads;
    }

    /** Rewrites every queued task's position; all of them must still be queued. */
    method Reindex()
      requires forall k :: 0 <= k < |payloads| ==> payloads[k].queued
      modifies `positions
      ensures positions == Reindexed(payloads, 0, old(positions))
    {
      for k := 0 to |payloads|
        invariant Reindexed(payloads, k, positions) == Reindexed(payloads, 0, old(positions))
      {
        positions := positions[payloads[k].id := k + 1];
      }
    }

    method Lookup(id: TaskId) returns (index: Option<nat>)
      ensures index == if Find(payloads, id) < |payloads| then Some(Find(payloads, id)) else None
    {
      for k := 0 to |payloads|
        invariant forall i :: 0 <= i < k ==> payloads[i].id != id
      {
        if payloads[k].id == id {
          return Some(k);
        }
      }
      return None;
    }

    method Remove(id: TaskId) returns (removed: Option<(Job, nat)>)
      requires forall k :: 0 <= k < |payloads| ==> payloads[k].queued
      modifies this
      ensures var k := Find(old(payloads), id);
              if k < |old(payloads)| then
                removed == Some((old(payloads)[k], k)) && payloads == RemoveAt(old(payloads), k)
                && positions == Reindexed(payloads, 0, old(positions))
              else removed == None && payloads == old(payloads) && positions == old(positions)
    {
      var found := Lookup(id);
      match found
      case None => return None;
      case Some(k) =>
        removed := Some((payloads[k], k));
        payloads := payloads[..k] + payloads[k + 1..];
        Reindex();
    }

    method Restore(job: Job, index: nat)
      requires job.queued && index <= |payloads|
      requires forall k :: 0 <= k < |payloads| ==> payloads[k].queued
      modifies this
      ensures payloads == InsertAt(old(payloads), index, job)
      ensures positions == Reindexed(payloads, 0, old(positions))
    {
      payloads := payloads[..index] + [job] + payloads[index..];
      Reindex();
    }
  }

  /** The release loop as a function of what each start answered and when cancellation was seen. */
  function ReleaseLoop(c: Limits, s: Sched, finished: TaskId, accepts: nat -> bool, cancels: nat -> nat,
                       round: nat): Sched
    decreases |s.queue|
  {
    var (s1, outcome) := AdvanceQueue(c, s, finished, cancels(round));
    match outcome
    case Promoted(job) =>
      if accepts(round) then ReleaseLoop(c, Commit(s1, job), finished, accepts, cancels, round + 1)
      else Compensate(s1, job)
    case _ => s1
  }

  /** One undisturbed round: either the head gets its slot and the loop goes on, or the loop ends
      with nothing to do. */
  lemma ReleaseLoopRound(c: Limits, s: Sched, finished: TaskId, accepts: nat -> bool, cancels: nat -> nat, round: nat)
    requires QueueOk(s) && (s.queue != [] ==> s.queue[0].snapshotOk) && accepts(round) && cancels(round) >= LOOKS
    ensures var s1 := s.(active := s.active - {finished});
            var r := ReleaseLoop(c, s, finished, accepts, cancels, round);
            if Blocked(c, s1) then r == s1
            else r == ReleaseLoop(c, Commit(Promote(s1), s1.queue[0]), finished, accepts, cancels, round + 1)
  {
    if s.queue != [] {
      assert s.queue[0].queued;
    }
  }

  lemma PromotedQueue(s: Sched)
    requires QueueOk(s) && s.queue != []
    ensures var next := Commit(Promote(s), s.queue[0]);
            QueueOk(next) && next.queue == s.queue[1..] && next.promotions == s.promotions
  {
    PromoteQueueOk(s);
    assert s.queue[0].id !in s.promotions;
  }

  /** What is left of a queue after a prefix was served. */
  predicate Suffix(left: seq<Job>, q: seq<Job>) {
    |left| <= |q| && left == q[|q| - |left|..]
  }

  lemma SuffixOfTail(left: seq<Job>, q: seq<Job>)
    requires q != [] && Suffix(left, q[1..])
    ensures Suffix(left, q)
  {
  }

  /** Undisturbed, the loop hands slots to a prefix of the queue, in order, and stops only when
      nothing waits or the head is blocked. */
  lemma {:induction false} ReleaseLoopDrains(c: Limits, s: Sched, finished: TaskId, accepts: nat -> bool,
                                             cancels: nat -> nat, round: nat)
    requires QueueOk(s)
    requires forall k :: 0 <= k < |s.queue| ==> s.queue[k].snapshotOk
    requires forall n :: n >= round ==> accepts(n) && cancels(n) >= LOOKS
    ensures var r := ReleaseLoop(c, s, finished, accepts, cancels, round);
            Blocked(c, r) && Suffix(r.queue, s.queue) && r.promotions == s.promotions
    decreases |s.queue|
  {
    var s1 := s.(active := s.active - {finished});
    ReleaseLoopRound(c, s, finished, accepts, cancels, round);
    if !Blocked(c, s1) {
      var next := Commit(Promote(s1), s1.queue[0]);
      PromotedQueue(s1);
      ReleaseLoopDrains(c, next, finished, accepts, cancels, round + 1);
      SuffixOfTail(ReleaseLoop(c, next, finished, accepts, cancels, round + 1).queue, s.queue);
    }
  }

  class SlotScheduler {
    const limits: Limits
    const queue: TaskQueue
    var active: map<TaskId, bool>
    var launching: set<TaskId>
    var promotions: set<TaskId>

    ghost function View(): Sched
      reads this, queue
    {
      Sched(queue.payloads, queue.positions, active, launching, promotions)
    }

    ghost predicate AllQueued()
      reads queue
    {
      forall k :: 0 <= k < |queue.payloads| ==> queue.payloads[k].queued
    }

    /** A task may leave the queued state only while it is the head. */
    ghost predicate TailQueued()
      reads queue
    {
      forall k :: 1 <= k < |queue.payloads| ==> queue.payloads[k].queued
    }

    constructor (c: Limits)
      ensures View() == EMPTY && limits == c && fresh(queue)
    {
      limits := c;
      queue := new TaskQueue();
      active, launching, promotions := map[], {}, {};
    }

    method Admit(job: Job, wellFormed: bool, submittable: bool) returns (outcome: Admission)
      requires job.queued
      modifies this, queue
      ensures (View(), outcome) == SchedModel.Admit(limits, old(View()), job, wellFormed, submittable)
    {
      if !wellFormed {
        return Refused;
      }
      var immediate := SlotFree(limits, active, job.impl) && queue.payloads == [];
      if !immediate && |queue.payloads| + |promotions| >= limits.depth {
        return QueueFull;
      }
      if !submittable {
        return Refused;
      }
      var initial := |queue.payloads| + 1;
      if immediate {
        if !job.snapshotOk {
          return Refused;
        }
        queue.positions := queue.positions[job.id := initial];
        active := active[job.id := job.impl];
        launching := launching + {job.id};
        return Immediate;
      }
      queue.positions := queue.positions[job.id := initial];
      var position := queue.Enqueue(job);
      return Queued(position);
    }

    method UndoAdmit(id: TaskId)
      modifies this
      ensures View() == SchedModel.UndoAdmit(old(View()), id)
    {
      launching := launching - {id};
      active := active - {id};
    }

    /** One locked pass: free the finished task's slot, then try the head of the queue. */
    method Advance(finished: TaskId, cancelAt: nat) returns (outcome: Advance)
      requires TailQueued()
      modifies this, queue
      ensures TailQueued() && (outcome.Promoted? ==> AllQueued() && outcome.job.queued)
      ensures (View(), outcome) == AdvanceQueue(limits, old(View()), finished, cancelAt)
    {
      if cancelAt <= 1 {
        return Failed;
      }
      active := active - {finished};
      if cancelAt == 2 {
        return Failed;
      }
      var head := queue.Dequeue();
      if head.None? {
        return Nothing;
      }
      var job := head.value;
      assert [job] + old(queue.payloads)[1..] == old(queue.payloads);
      if !job.queued {
        return Failed;
      }
      if !SlotFree(limits, active, job.impl) {
        queue.Prepend(job);
        return Nothing;
      }
      if cancelAt == 3 || !job.snapshotOk {
        queue.Prepend(job);
        return Failed;
      }
      outcome := Reserve(job, cancelAt);
    }

    /** Gives the dequeued head its slot, undoing everything if cancellation is seen on the way. */
    method Reserve(job: Job, cancelAt: nat) returns (outcome: Advance)
      requires job.queued && AllQueued() && cancelAt >= 4
      modifies this, queue
      ensures AllQueued()
      ensures var s := old(View()).(queue := [job] + old(queue.payloads));
              if cancelAt == 4 then View() == Unreserved(s) && outcome == Failed
              else if cancelAt == 5 then View() == Unpromoted(s) && outcome == Failed
              else View() == Promote(s) && outcome == Promoted(job)
    {
      active := active[job.id := job.impl];
      if cancelAt == 4 {
        active := active - {job.id};
        queue.Prepend(job);
        queue.Reindex();
        assert active == old(active) - {job.id};
        return Failed;
      }
      launching := launching + {job.id};
      if cancelAt == 5 {
        launching := launching - {job.id};
        active := active - {job.id};
        queue.Prepend(job);
        queue.Reindex();
        assert active == old(active) - {job.id} && launching == old(launching) - {job.id};
        return Failed;
      }
      promotions := promotions + {job.id};
      queue.Reindex();
      return Promoted(job);
    }

    method Compensate(job: Job)
      requires job.queued && AllQueued()
      modifies this, queue
      ensures AllQueued() && View() == SchedModel.Compensate(old(View()), job)
    {
      if job.id !in promotions {
        return;
      }
      promotions := promotions - {job.id};
      launching := launching - {job.id};
      active := active - {job.id};
      queue.Prepend(job);
      queue.Reindex();
    }

    method Commit(job: Job)
      modifies `promotions
      ensures View() == SchedModel.Commit(old(View()), job)
    {
      promotions := promotions - {job.id};
    }

    /** Runs until nothing is promoted or a start is refused; each further round has a shorter queue. */
    method ReleaseAndAdvance(finished: TaskId, accepts: nat -> bool, cancels: nat -> nat)
      requires TailQueued()
      modifies this, queue
      ensures TailQueued() && View() == ReleaseLoop(limits, old(View()), finished, accepts, cancels, 0)
    {
      var round := 0;
      while true
        invariant TailQueued()
        invariant ReleaseLoop(limits, View(), finished, accepts, cancels, round)
               == ReleaseLoop(limits, old(View()), finished, accepts, cancels, 0)
        decreases |queue.payloads|
      {
        var outcome := Advance(finished, cancels(round));
        if !outcome.Promoted? {
          return;
        }
        if !accepts(round) {
          Compensate(outcome.job);
          return;
        }
        Commit(outcome.job);
        round := round + 1;
      }
    }
  }
}
