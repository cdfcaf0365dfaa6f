/** The timeout watcher as an object: each method is one critical section of its mutex
    (internal/execution/timeout.go). */
module Timeouts {
  import opened TaskDomain
  import opened TimerModel

  class TimeoutWatcher {
    var timers: map<TaskId, Armed>
    var generation: nat
    var closed: bool
    var waits: int
    /** The timer factory: every callback it was given, in order. */
    var callbacks: seq<Callback>
    ghost var started: seq<nat>

    ghost function View(): Watcher
      reads this
    {
      Watcher(timers, generation, closed, waits, callbacks, started)
    }

    constructor ()
      ensures View() == IDLE
    {
      timers, generation, closed, waits, callbacks, started := map[], 0, false, 0, [], [];
    }

    method Cancel(k: nat)
      modifies this
      ensures View() == Cancelled(old(View()), k)
    {
      if k < |callbacks| && callbacks[k].phase == Waiting {
        callbacks := callbacks[k := callbacks[k].(phase := Stopped)];
        waits := waits - 1;
      }
    }

    method Schedule(id: TaskId, stamp: nat, retries: nat)
      modifies this
      ensures View() == Scheduled(old(View()), id, stamp, retries)
    {
      waits := waits + 1;
      callbacks := callbacks + [Callback(id, stamp, Waiting)];
      timers := timers[id := Armed(|callbacks| - 1, stamp, retries, false)];
    }

    method Arm(id: TaskId)
      modifies this
      ensures View() == TimerModel.Arm(old(View()), id)
      ensures Steady(old(View())) ==> Steady(View())
    {
      ghost var before := View();
      if !closed {
        Rearm(id);
      }
      if Steady(before) {
        ArmOk(before, id);
      }
    }

    method Rearm(id: TaskId)
      requires !closed
      modifies this
      ensures View() == TimerModel.Arm(old(View()), id)
    {
      if id in timers {
        Cancel(timers[id].callback);
      }
      generation := generation + 1;
      Schedule(id, generation, 0);
    }

    method Disarm(id: TaskId)
      modifies this
      ensures View() == TimerModel.Disarm(old(View()), id)
      ensures Steady(old(View())) ==> Steady(View())
    {
      ghost var before := View();
      if id in timers {
        Cancel(timers[id].callback);
        timers := timers - {id};
      }
      if Steady(before) {
        DisarmOk(before, id);
      }
    }

    /** The critical section of closing; the caller then waits for the count to reach zero. */
    method Close() returns (ghost order: seq<TaskId>)
      modifies this
      ensures Covers(old(View()), order) && View() == TimerModel.Close(old(View()), order)
      ensures Steady(old(View())) ==> Steady(View())
      ensures closed && (Steady(old(View())) || !old(closed) ==> timers == map[])
    {
      ghost var before := View();
      order := [];
      if closed {
        order := Enumeration(timers);
      } else {
        closed := true;
        ghost var at := View();
        assert at == before.(closed := true);
        while timers != map[]
          invariant closed
          invariant View() == DisarmAll(at, order)
          invariant forall id :: id in before.timers ==> id in timers || id in order
          decreases |timers|
        {
          var id :| id in timers;
          DisarmAllAppend(at, order, id);
          Cancel(timers[id].callback);
          timers := timers - {id};
          order := order + [id];
        }
      }
      if Steady(before) {
        CloseOk(before, order);
      }
    }

    /** A fired callback enters: should it enforce? */
    method Begin(k: nat) returns (enforce: bool)
      requires In(View(), k, Fired)
      modifies this
      ensures View() == TimerModel.Begin(old(View()), k)
      ensures enforce <==> callbacks[k].phase == Executing
    {
      var c := callbacks[k];
      if c.task !in timers || timers[c.task].generation != c.generation || timers[c.task].executing || closed {
        callbacks := callbacks[k := c.(phase := Leaving)];
        return false;
      }
      timers := timers[c.task := timers[c.task].(executing := true)];
      callbacks := callbacks[k := c.(phase := Executing)];
      started := started + [c.generation];
      return true;
    }

    method FinishExecution(k: nat, retryable: bool)
      requires In(View(), k, Executing)
      modifies this
      ensures View() == Finish(old(View()), k, retryable)
    {
      var c := callbacks[k];
      callbacks := callbacks[k := c.(phase := Leaving)];
      if c.task !in timers || timers[c.task].generation != c.generation {
        return;
      }
      if closed || !retryable || timers[c.task].retries >= MAX_RETRIES {
        timers := timers - {c.task};
        return;
      }
      Schedule(c.task, c.generation, timers[c.task].retries + 1);
    }
  }

  lemma {:induction false} DisarmAllAppend(w: Watcher, order: seq<TaskId>, id: TaskId)
    ensures DisarmAll(w, order + [id]) == TimerModel.Disarm(DisarmAll(w, order), id)
    decreases |order|
  {
    if order == [] {
      assert [id][1..] == [];
    } else {
      assert (order + [id])[1..] == order[1..] + [id];
      DisarmAllAppend(TimerModel.Disarm(w, order[0]), order[1..], id);
    }
  }

  ghost function Enumeration(timers: map<TaskId, Armed>): (order: seq<TaskId>)
    ensures forall id :: id in timers ==> id in order
    decreases |timers|
  {
    if timers == map[] then []
    else
      var id :| id in timers;
      Enumeration(timers - {id}) + [id]
  }
}
