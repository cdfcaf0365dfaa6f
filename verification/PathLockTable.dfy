/** The stored path locks and the acquisition that works on them in place, with others releasing theirs
    at any moment (internal/execution/pathlock.go). */
module PathLockTable {
  import opened Options
  import opened TaskDomain
  import opened TaskSnapshots
  import opened PathLocks

  /** What the outside world does during one acquisition: how the probes answer, who releases before the
      n-th access to the store, and how its writes fare. */
  datatype Env = Env(live: TaskId -> Liveness, stored: TaskId -> Stored, released: nat -> seq<TaskId>,
                     delete: nat -> Fault, save: Fault)

  function VerdictOn(env: Env, id: TaskId): Verdict {
    Classify(env.live(id), env.stored(id))
  }

  function VerdictsOn(env: Env, locks: seq<Lock>): (r: seq<Verdict>)
    ensures |r| == |locks| && forall i :: 0 <= i < |r| ==> r[i] == VerdictOn(env, locks[i].id)
  {
    seq(|locks|, i requires 0 <= i < |locks| => VerdictOn(env, locks[i].id))
  }

  /** Sorts listed locks into living and dead ones; one that cannot be judged fails closed. */
  method Sort(locks: seq<Lock>, env: Env) returns (survivors: seq<Lock>, stale: seq<Lock>, ok: bool)
    ensures ok <==> GiveUp !in VerdictsOn(env, locks)
    ensures ok ==> survivors == Judged(Listing(locks, VerdictsOn(env, locks)), Alive, |locks|)
    ensures ok ==> stale == Judged(Listing(locks, VerdictsOn(env, locks)), Dead, |locks|)
  {
    survivors, stale, ok := [], [], true;
    ghost var l := Listing(locks, VerdictsOn(env, locks));
    for i := 0 to |locks|
      invariant ok && GiveUp !in l.verdicts[..i]
      invariant survivors == Judged(l, Alive, i) && stale == Judged(l, Dead, i)
    {
      var verdict := VerdictOn(env, locks[i].id);
      assert l.verdicts[i] == verdict;
      if verdict == GiveUp {
        assert l.verdicts[i] in l.verdicts;
        return survivors, stale, false;
      }
      if verdict == Dead {
        stale := stale + [locks[i]];
      } else {
        survivors := survivors + [locks[i]];
      }
    }
    assert l.verdicts[..|locks|] == l.verdicts;
  }

  method ValidateStored(locks: seq<Lock>) returns (ok: bool)
    ensures ok <==> StoredOk(locks)
  {
    for i := 0 to |locks|
      invariant forall k, j :: 0 <= k < i && 0 <= j < |locks[k].paths| ==> NormalizedPath(locks[k].paths[j])
    {
      for j := 0 to |locks[i].paths|
        invariant forall k :: 0 <= k < j ==> NormalizedPath(locks[i].paths[k])
      {
        if !NormalizedPath(locks[i].paths[j]) {
          return false;
        }
      }
    }
    return true;
  }

  /** Nobody releases meanwhile, and every deletion works. */
  ghost predicate Quiet(env: Env) {
    (forall n :: env.released(n) == []) && (forall n :: env.delete(n) == Works)
  }

  /** Exactly the stored locks judged so. */
  ghost predicate SortedAs(locks: seq<Lock>, store: Store, env: Env, v: Verdict) {
    && (forall i :: 0 <= i < |locks| ==>
          locks[i].id in store && store[locks[i].id] == locks[i].paths && VerdictOn(env, locks[i].id) == v)
    && (forall id :: id in store && VerdictOn(env, id) == v ==> exists i :: 0 <= i < |locks| && locks[i].id == id)
  }

  lemma JudgedSorted(l: Listing, store: Store, env: Env, v: Verdict)
    requires ListingOf(l, store) && l.verdicts == VerdictsOn(env, l.locks)
    ensures SortedAs(Judged(l, v, |l.locks|), store, env, v)
  {
    var judged := Judged(l, v, |l.locks|);
    forall i | 0 <= i < |judged|
      ensures judged[i].id in store && store[judged[i].id] == judged[i].paths && VerdictOn(env, judged[i].id) == v
    {
      var k := JudgedOnly(l, v, |l.locks|, judged[i]);
    }
    forall id | id in store && VerdictOn(env, id) == v
      ensures exists i :: 0 <= i < |judged| && judged[i].id == id
    {
      var k :| 0 <= k < |l.locks| && l.locks[k].id == id;
      JudgedHas(l, v, |l.locks|, k);
    }
  }

  lemma AllJudged(l: Listing, store: Store, env: Env)
    requires ListingOf(l, store) && l.verdicts == VerdictsOn(env, l.locks)
    ensures GiveUp !in l.verdicts <==> forall id :: id in store ==> VerdictOn(env, id) != GiveUp
  {
    forall id | id in store && VerdictOn(env, id) == GiveUp
      ensures GiveUp in l.verdicts
    {
      var k :| 0 <= k < |l.locks| && l.locks[k].id == id;
      assert l.verdicts[k] == GiveUp;
    }
  }

  /** The store without the locks of dead tasks. */
  ghost function Repaired(store: Store, env: Env): Store {
    map id | id in store && VerdictOn(env, id) != Dead :: store[id]
  }

  ghost predicate SharesNothing(paths: seq<Path>, store: Store) {
    forall id :: id in store ==> Disjoint(paths, store[id])
  }

  ghost predicate AllNormalized(store: Store) {
    forall id, j :: id in store && 0 <= j < |store[id]| ==> NormalizedPath(store[id][j])
  }

  /** All that an undisturbed acquisition comes to. A lock that cannot be judged stops it before anything is
      deleted. Otherwise stale locks go, and the request is granted exactly if it can be normalized, so are the
      locks that remain, it shares no path with them, and saving works. */
  ghost predicate Outcome(was: Store, env: Env, id: TaskId, requested: Option<seq<Path>>, now: Store, report: Report) {
    var clean := Repaired(was, env);
    if exists other :: other in was && VerdictOn(env, other) == GiveUp then now == was && report == Failed(id)
    else if requested == Some([]) then now == clean && report == Acquired(id, [])
    else if requested.None? || !AllNormalized(clean) then now == clean && report == Failed(id)
    else if SharesNothing(requested.value, clean) then
      && now == (if env.save == FailsClean then clean else clean[id := requested.value])
      && report == if env.save == Works then Acquired(id, requested.value) else Failed(id)
    else
      && now == clean && report.Conflict? && report.id == id && report.requested == requested.value
      && report.path in requested.value && report.named in clean && report.path in clean[report.named]
  }

  lemma SurvivorsRemain(was: Store, env: Env, survivors: seq<Lock>, paths: seq<Path>)
    requires SortedAs(survivors, was, env, Alive)
    requires forall id :: id in was ==> VerdictOn(env, id) != GiveUp
    ensures StoredOk(survivors) <==> AllNormalized(Repaired(was, env))
    ensures Free(paths, survivors) <==> SharesNothing(paths, Repaired(was, env))
    ensures forall named :: RealConflict(named, paths, survivors) ==>
              named.0 in Repaired(was, env) && named.1 in Repaired(was, env)[named.0]
  {
    var clean := Repaired(was, env);
    forall id | id in clean
      ensures exists i :: 0 <= i < |survivors| && survivors[i].id == id && survivors[i].paths == clean[id]
    {
      assert VerdictOn(env, id) == Alive;
      var i :| 0 <= i < |survivors| && survivors[i].id == id;
    }
    assert forall i :: 0 <= i < |survivors| ==>
        survivors[i].id in clean && clean[survivors[i].id] == survivors[i].paths;
  }

  lemma ConcludedOutcome(was: Store, env: Env, id: TaskId, requested: Option<seq<Path>>, survivors: seq<Lock>,
                         now: Store, report: Report)
    requires SortedAs(survivors, was, env, Alive)
    requires forall other :: other in was ==> VerdictOn(env, other) != GiveUp
    requires Concluded(Repaired(was, env), id, requested, survivors, env.save, now, report)
    ensures Outcome(was, env, id, requested, now, report)
  {
    SurvivorsRemain(was, env, survivors, if requested.Some? then requested.value else []);
  }

  class LockTable {
    var store: Store
    /** Everything that was done to the store, by whomever, since it was empty. */
    ghost var steps: seq<Step>

    ghost function Now(): World
      reads this
    {
      Run(NOTHING, steps)
    }

    ghost predicate Valid()
      reads this
    {
      Now().store == store
    }

    constructor ()
      ensures Valid() && Now() == NOTHING
    {
      store, steps := map[], [];
    }

    ghost method Take(e: Step)
      modifies `steps
      ensures Now() == PathLocks.Next(old(Now()), e)
    {
      RunAppend(NOTHING, steps, e);
      steps := steps + [e];
    }

    /** Releasing needs no mutex. */
    method Release(ids: seq<TaskId>)
      requires Valid()
      modifies this
      ensures Valid() && Now().holder == old(Now()).holder && Now().reports == old(Now()).reports
      ensures ids == [] ==> store == old(store)
    {
      for i := 0 to |ids|
        invariant i == 0 ==> store == old(store)
        invariant Valid() && Now().holder == old(Now()).holder && Now().reports == old(Now()).reports
      {
        store := store - {ids[i]};
        Take(ReleaseLock(ids[i]));
      }
    }

    method List() returns (locks: seq<Lock>)
      ensures forall verdicts :: |verdicts| == |locks| ==> ListingOf(Listing(locks, verdicts), store)
    {
      locks := [];
      var left := store.Keys;
      while left != {}
        invariant left <= store.Keys
        invariant forall i :: 0 <= i < |locks| ==> locks[i].id in store && store[locks[i].id] == locks[i].paths
        invariant forall id :: id in store && id !in left ==> exists i :: 0 <= i < |locks| && locks[i].id == id
      {
        var id :| id in left;
        ghost var before := locks;
        locks := locks + [Lock(id, store[id])];
        left := left - {id};
        assert locks[|before|].id == id;
        forall other | other in store && other !in left && other != id
          ensures exists i :: 0 <= i < |locks| && locks[i].id == other
        {
          var i :| 0 <= i < |before| && before[i].id == other;
          assert locks[i].id == other;
        }
      }
    }

    /** Lists and judges; ends at once if a lock cannot be judged. */
    method Begin(id: TaskId, requested: Option<seq<Path>>, env: Env)
      returns (survivors: seq<Lock>, stale: seq<Lock>, ok: bool)
      requires Valid() && Now().holder == None
      modifies `steps
      ensures Valid()
      ensures !ok ==> Now().holder == None && Now().reports == old(Now()).reports + [Failed(id)]
      ensures ok <==> forall other :: other in store ==> VerdictOn(env, other) != GiveUp
      ensures ok ==> SortedAs(survivors, store, env, Alive) && SortedAs(stale, store, env, Dead)
      ensures ok ==> Now().reports == old(Now()).reports && Now().holder.Some? && Now().holder.value.id == id
                     && Now().holder.value.requested == requested && Now().holder.value.survivors == survivors
                     && Now().holder.value.stale == stale
    {
      var locks := List();
      survivors, stale, ok := Sort(locks, env);
      ghost var listing := Listing(locks, VerdictsOn(env, locks));
      assert ListingOf(listing, store);
      AllJudged(listing, store, env);
      JudgedSorted(listing, store, env, Alive);
      JudgedSorted(listing, store, env, Dead);
      Take(PathLocks.Begin(id, requested, listing));
    }

    /** Deletes one stale lock after another; the first failure ends the acquisition. */
    method DeleteAll(id: TaskId, stale: seq<Lock>, env: Env) returns (ok: bool)
      requires Valid() && Now().holder.Some? && Now().holder.value.stale == stale && Now().holder.value.id == id
      modifies this
      ensures Valid()
      ensures ok ==> Now().holder == Some(old(Now()).holder.value.(stale := [])) && Now().reports == old(Now()).reports
      ensures !ok ==> Now().holder == None && Now().reports == old(Now()).reports + [Failed(id)]
      ensures Quiet(env) && SortedAs(stale, old(store), env, Dead) ==> ok && store == Repaired(old(store), env)
    {
      ghost var a, was := Now().holder.value, store;
      for i := 0 to |stale|
        invariant Quiet(env) ==> Without(was, stale[..i], store)
        invariant Valid() && Now().holder == Some(a.(stale := stale[i..])) && Now().reports == old(Now()).reports
      {
        ghost var before := store;
        Release(env.released(i + 1));
        var fault := env.delete(i);
        if fault != FailsClean {
          store := store - {stale[i].id};
        }
        if Quiet(env) {
          WithoutOneMore(was, stale, i, before);
        }
        assert stale[i..][0] == stale[i] && stale[i..][1..] == stale[i + 1..];
        Take(DeleteStale(fault));
        if fault != Works {
          return false;
        }
      }
      assert stale[..|stale|] == stale;
      if Quiet(env) && SortedAs(stale, was, env, Dead) {
        WithoutAll(was, stale, env, store);
      }
      ok := true;
    }

    /** Refuses, reports a conflict, or saves. */
    method Conclude(id: TaskId, requested: Option<seq<Path>>, survivors: seq<Lock>, fault: Fault)
      returns (report: Report)
      requires Valid() && Now().holder.Some? && Now().holder.value.stale == [] && Now().holder.value.id == id
      requires Now().holder.value.requested == requested && Now().holder.value.survivors == survivors
      modifies this
      ensures Valid() && Now().holder == None && |Now().reports| == |old(Now()).reports| + 1
      ensures Now().reports[..|old(Now()).reports|] == old(Now()).reports
      ensures Summary(Now().reports[|old(Now()).reports|], report)
      ensures report.Acquired? && report.paths != [] ==> id in store && store[id] == report.paths
      ensures Concluded(old(store), id, requested, survivors, fault, store, report)
    {
      report := Failed(id);
      if requested.Some? && requested.value == [] {
        report := Acquired(id, []);
      } else if requested.Some? {
        var valid := ValidateStored(survivors);
        if valid {
          report := SaveOrConflict(id, requested.value, survivors, fault);
        }
      }
      Take(Decide(fault));
    }

    method SaveOrConflict(id: TaskId, requested: seq<Path>, survivors: seq<Lock>, fault: Fault) returns (report: Report)
      modifies `store
      ensures FirstConflict(requested, survivors, 0).None? <==> Free(requested, survivors)
      ensures report.Conflict? ==> RealConflict((report.named, report.path), requested, survivors)
      ensures var named := FirstConflict(requested, survivors, 0);
              if named.Some? then
                store == old(store) && report == Conflict(id, requested, named.value.0, named.value.1, Listing([], []))
              else
                && store == (if fault == FailsClean then old(store) else old(store)[id := requested])
                && report == if fault == Works then Acquired(id, requested) else Failed(id)
    {
      FirstConflictMeans(requested, survivors, 0);
      var lock := PathLocks.Acquire(id, requested, survivors);
      if lock.None? {
        var named := FindConflict(requested, survivors);
        return Conflict(id, requested, named.value.0, named.value.1, Listing([], []));
      }
      if fault != FailsClean {
        store := store[id := lock.value.paths];
      }
      report := if fault == Works then Acquired(id, requested) else Failed(id);
    }

    /** One acquisition, from taking the mutex to giving it up. What it did is a run of the protocol in which
        it alone held the mutex; locks are exclusive after it, and what it reports is so. */
    method Execute(id: TaskId, requested: Option<seq<Path>>, env: Env) returns (report: Report)
      requires Valid() && Now().holder == None
      modifies this
      ensures Valid() && Now().holder == None && Exclusive(store)
      ensures |Now().reports| == |old(Now()).reports| + 1 && Now().reports[..|old(Now()).reports|] == old(Now()).reports
      ensures Summary(Now().reports[|old(Now()).reports|], report) && Truthful(Now().reports[|old(Now()).reports|])
      ensures report.Acquired? && report.paths != [] ==> id in store && store[id] == report.paths
      ensures Quiet(env) ==> Outcome(old(store), env, id, requested, store, report)
    {
      Release(env.released(0));
      ghost var listed := store;
      var survivors, stale, ok := Begin(id, requested, env);
      if ok {
        ok := DeleteAll(id, stale, env);
      }
      if ok {
        Release(env.released(|stale| + 1));
        report := Conclude(id, requested, survivors, env.save);
        if Quiet(env) {
          ConcludedOutcome(listed, env, id, requested, survivors, store, report);
        }
      } else {
        report := Failed(id);
      }
      EveryRunOk(NOTHING, steps);
    }
  }

  /** What concluding comes to, by the locks that survived. */
  ghost predicate Concluded(was: Store, id: TaskId, requested: Option<seq<Path>>, survivors: seq<Lock>, fault: Fault,
                            now: Store, report: Report)
  {
    if requested == Some([]) then now == was && report == Acquired(id, [])
    else if requested.None? || !StoredOk(survivors) then now == was && report == Failed(id)
    else if Free(requested.value, survivors) then
      && now == (if fault == FailsClean then was else was[id := requested.value])
      && report == if fault == Works then Acquired(id, requested.value) else Failed(id)
    else
      && now == was && report.Conflict? && report.id == id && report.requested == requested.value
      && RealConflict((report.named, report.path), requested.value, survivors)
  }

  /** The store without these locks' tasks. */
  ghost predicate Without(was: Store, gone: seq<Lock>, now: Store) {
    forall id ::
      && (id in now <==> id in was && forall k :: 0 <= k < |gone| ==> gone[k].id != id)
      && (id in now ==> now[id] == was[id])
  }

  lemma WithoutOneMore(was: Store, stale: seq<Lock>, i: nat, now: Store)
    requires i < |stale| && Without(was, stale[..i], now)
    ensures Without(was, stale[..i + 1], now - {stale[i].id})
  {
    assert stale[..i + 1] == stale[..i] + [stale[i]];
  }

  lemma WithoutAll(was: Store, stale: seq<Lock>, env: Env, now: Store)
    requires Without(was, stale, now) && SortedAs(stale, was, env, Dead)
    ensures now == Repaired(was, env)
  {
  }

  /** What the caller is told: the record without the listing. */
  predicate Summary(record: Report, told: Report) {
    if record.Conflict? then told.Conflict? && told == record.(listing := told.listing) else told == record
  }
}
