/** Lifecycle ownership: one lease per task at a time, numbered by generation
    (internal/execution/lifecycle_ownership.go). */
module Leases {
  import opened Options
  import opened TaskDomain

  /** Generations are unbounded here; the code's are 64 bits wide. */
  datatype Table = Table(owners: map<TaskId, nat>, generation: nat)

  const UNOWNED: Table := Table(map[], 0)

  function Acquired(t: Table, id: TaskId): (r: (Table, Option<nat>)) {
    if id in t.owners then (t, None)
    else (Table(t.owners[id := t.generation + 1], t.generation + 1), Some(t.generation + 1))
  }

  predicate Current(t: Table, id: TaskId, generation: nat) {
    id in t.owners && t.owners[id] == generation
  }

  function Ended(t: Table, id: TaskId, generation: nat): Table {
    if Current(t, id, generation) then t.(owners := t.owners - {id}) else t
  }

  predicate Wf(t: Table) {
    forall id :: id in t.owners ==> 1 <= t.owners[id] <= t.generation
  }

  datatype Op = AcquireOp(id: TaskId) | ReleaseOp(id: TaskId, generation: nat)

  function Step(t: Table, op: Op): Table {
    match op
    case AcquireOp(id) => Acquired(t, id).0
    case ReleaseOp(id, generation) => Ended(t, id, generation)
  }

  /** A generation already given out that is not current never becomes current again. */
  lemma LapsedForGood(t: Table, op: Op, id: TaskId, generation: nat)
    requires Wf(t) && generation <= t.generation
    ensures Wf(Step(t, op)) && generation <= Step(t, op).generation
    ensures Current(Step(t, op), id, generation) ==> Current(t, id, generation)
    ensures Current(t, id, generation) && !Current(Step(t, op), id, generation) ==> op == ReleaseOp(id, generation)
  {
  }

  /** An unowned task is granted the next generation, an owned one is not, and no other task's lease changes. */
  lemma AcquireOutcome(t: Table, id: TaskId, other: TaskId)
    ensures var (t', granted) := Acquired(t, id);
            && (granted.Some? <==> id !in t.owners)
            && (granted.Some? ==> granted.value == t'.generation == t.generation + 1 && Current(t', id, granted.value))
            && (granted.None? ==> t' == t)
            && (other != id ==> forall g :: Current(t', other, g) <==> Current(t, other, g))
  {
  }

  /** Ending a lease frees the task exactly if it is the current one, and no other task's lease changes. */
  lemma EndOutcome(t: Table, id: TaskId, generation: nat, other: TaskId)
    ensures var t' := Ended(t, id, generation);
            && t'.generation == t.generation && !Current(t', id, generation)
            && (Current(t, id, generation) ==> Acquired(t', id).1.Some?)
            && (!Current(t, id, generation) ==> t' == t)
            && (other != id ==> forall g :: Current(t', other, g) <==> Current(t, other, g))
  {
  }

  class Registry {
    var owners: map<TaskId, nat>
    var generation: nat

    ghost function View(): Table
      reads this
    {
      Table(owners, generation)
    }

    constructor ()
      ensures View() == UNOWNED
    {
      owners, generation := map[], 0;
    }

    method Acquire(id: TaskId) returns (lease: Lease?)
      modifies this
      ensures View() == Acquired(old(View()), id).0
      ensures lease == null <==> Acquired(old(View()), id).1.None?
      ensures lease != null ==> fresh(lease) && lease.registry == this && lease.id == id && !lease.released
                                && Some(lease.generation) == Acquired(old(View()), id).1
    {
      if id in owners {
        return null;
      }
      generation := generation + 1;
      owners := owners[id := generation];
      lease := new Lease(this, id, generation);
    }

    /** Whether the action may run; it runs before the read lock is given up. */
    method WithCurrent(id: TaskId, generation: nat) returns (executed: bool)
      ensures executed <==> Current(View(), id, generation)
    {
      executed := id in owners && owners[id] == generation;
    }
  }

  /** The release closure handed out with a generation. */
  class Lease {
    const registry: Registry
    const id: TaskId
    const generation: nat
    var released: bool

    constructor (registry: Registry, id: TaskId, generation: nat)
      ensures this.registry == registry && this.id == id && this.generation == generation && !released
    {
      this.registry, this.id, this.generation, released := registry, id, generation, false;
    }

    /** Runs at most once, and even then ends no lease but its own. */
    method Release()
      modifies this, registry
      ensures released
      ensures registry.View() ==
                if old(released) then old(registry.View()) else Ended(old(registry.View()), id, generation)
    {
      if released {
        return;
      }
      released := true;
      if id in registry.owners && registry.owners[id] == generation {
        registry.owners := registry.owners - {id};
      }
    }
  }
}
