/** Path locks: acquiring under a mutex with repair of stale locks, releasing without it
    (internal/execution/pathlock.go, internal/domain/pathlock.go). */
module PathLocks {
  import opened Options
  import opened TaskDomain
  import opened TaskSnapshots

  type Path = string

  type Store = map<TaskId, seq<Path>>

  datatype Lock = Lock(id: TaskId, paths: seq<Path>)

  predicate Disjoint(a: seq<Path>, b: seq<Path>) {
    forall i, j :: 0 <= i < |a| && 0 <= j < |b| ==> a[i] != b[j]
  }

  // ---- the decisions, as loops ----

  method Overlaps(p: Lock, other: Lock) returns (r: bool)
    ensures r <==> !Disjoint(p.paths, other.paths)
  {
    var owned: set<Path> := {};
    for i := 0 to |p.paths|
      invariant owned == set k | 0 <= k < i :: p.paths[k]
    {
      owned := owned + {p.paths[i]};
    }
    for j := 0 to |other.paths|
      invariant forall k :: 0 <= k < j ==> other.paths[k] !in owned
    {
      if other.paths[j] in owned {
        return true;
      }
    }
    return false;
  }

  ghost predicate Free(requested: seq<Path>, active: seq<Lock>) {
    forall i :: 0 <= i < |active| ==> Disjoint(requested, active[i].paths)
  }

  method Acquire(id: TaskId, requested: seq<Path>, active: seq<Lock>) returns (r: Option<Lock>)
    ensures r.Some? <==> Free(requested, active)
    ensures r.Some? ==> r.value == Lock(id, requested)
  {
    var candidate := Lock(id, requested);
    for i := 0 to |active|
      invariant forall k :: 0 <= k < i ==> Disjoint(requested, active[k].paths)
    {
      var clash := Overlaps(candidate, active[i]);
      if clash {
        return None;
      }
    }
    return Some(candidate);
  }

  /** The first path of `owned`, from index k on, that is requested. */
  function Shared(requested: seq<Path>, owned: seq<Path>, k: nat): Option<Path>
    decreases |owned| - k
  {
    if k >= |owned| then None else if owned[k] in requested then Some(owned[k]) else Shared(requested, owned, k + 1)
  }

  /** The first conflict, in order of locks and of the paths they own, from lock i on. */
  function FirstConflict(requested: seq<Path>, active: seq<Lock>, i: nat): Option<(TaskId, Path)>
    decreases |active| - i
  {
    if i >= |active| then None
    else
      var path := Shared(requested, active[i].paths, 0);
      if path.Some? then Some((active[i].id, path.value)) else FirstConflict(requested, active, i + 1)
  }

  lemma {:induction false} SharedMeans(requested: seq<Path>, owned: seq<Path>, k: nat)
    ensures Shared(requested, owned, k).None? <==> forall i, j :: 0 <= i < |requested| && k <= j < |owned| ==>
              requested[i] != owned[j]
    ensures Shared(requested, owned, k).Some? ==>
              Shared(requested, owned, k).value in requested && Shared(requested, owned, k).value in owned
    decreases |owned| - k
  {
    if k < |owned| {
      SharedMeans(requested, owned, k + 1);
    }
  }

  /** Named is a requested path that the named active lock owns. */
  ghost predicate RealConflict(named: (TaskId, Path), requested: seq<Path>, active: seq<Lock>) {
    named.1 in requested && exists i :: 0 <= i < |active| && active[i].id == named.0 && named.1 in active[i].paths
  }

  lemma {:induction false} FirstConflictMeans(requested: seq<Path>, active: seq<Lock>, i: nat)
    ensures FirstConflict(requested, active, i).None? <==> forall k :: i <= k < |active| ==>
              Disjoint(requested, active[k].paths)
    ensures FirstConflict(requested, active, i).Some? ==>
              RealConflict(FirstConflict(requested, active, i).value, requested, active)
    decreases |active| - i
  {
    if i < |active| {
      SharedMeans(requested, active[i].paths, 0);
      FirstConflictMeans(requested, active, i + 1);
    }
  }

  method FindConflict(requested: seq<Path>, active: seq<Lock>) returns (named: Option<(TaskId, Path)>)
    ensures named == FirstConflict(requested, active, 0)
    ensures named.None? <==> Free(requested, active)
    ensures named.Some? ==> RealConflict(named.value, requested, active)
  {
    FirstConflictMeans(requested, active, 0);
    for i := 0 to |active|
      invariant FirstConflict(requested, active, i) == FirstConflict(requested, active, 0)
    {
      var owned := active[i].paths;
      for j := 0 to |owned|
        invariant Shared(requested, owned, j) == Shared(requested, owned, 0)
      {
        for m := 0 to |requested|
          invariant forall l :: 0 <= l < m ==> requested[l] != owned[j]
        {
          if requested[m] == owned[j] {
            return Some((active[i].id, requested[m]));
          }
        }
      }
    }
    return None;
  }

  // ---- the protocol ----

  /** What an acquirer learns about a listed lock's task. */
  datatype Liveness = LockFree | LockHeld | NoLockFile | LivenessError
  datatype Stored = TaskMissing | TaskUnreadable | TaskIn(state: TaskState)
  datatype Verdict = Dead | Alive | GiveUp

  function Classify(l: Liveness, s: Stored): Verdict {
    match l
    case LockFree => Dead
    case LockHeld => Alive
    case LivenessError => GiveUp
    case NoLockFile =>
      (match s
       case TaskMissing => Dead
       case TaskUnreadable => GiveUp
       case TaskIn(state) => if state == StQueued || state == StStarting then Alive else Dead)
  }

  /** A lock is stale exactly if its task's own lock can be taken, or has no file and the task is gone or past
      its launch; what cannot be told is neither stale nor alive. */
  lemma ClassifyOutcome(l: Liveness, s: Stored)
    ensures Classify(l, s) == Dead <==>
              l == LockFree
                  || (l == NoLockFile && (s == TaskMissing || (s.TaskIn? && s.state !in {StQueued, StStarting})))
    ensures Classify(l, s) == GiveUp <==> l == LivenessError || (l == NoLockFile && s == TaskUnreadable)
    ensures Classify(l, s) == Alive <==>
              l == LockHeld || (l == NoLockFile && s.TaskIn? && s.state in {StQueued, StStarting})
  {
  }

  /** What the store held when it was listed, in the order listed, with the verdict on each lock's task. */
  datatype Listing = Listing(locks: seq<Lock>, verdicts: seq<Verdict>)

  ghost predicate ListingOf(l: Listing, store: Store) {
    && |l.locks| == |l.verdicts|
    && (forall i :: 0 <= i < |l.locks| ==> l.locks[i].id in store && store[l.locks[i].id] == l.locks[i].paths)
    && (forall id :: id in store ==> exists i :: 0 <= i < |l.locks| && l.locks[i].id == id)
  }

  /** The locks judged so, in order. */
  function Judged(l: Listing, v: Verdict, k: nat): seq<Lock>
    requires |l.locks| == |l.verdicts| && k <= |l.locks|
  {
    if k == 0 then []
    else if l.verdicts[k - 1] == v then Judged(l, v, k - 1) + [l.locks[k - 1]]
    else Judged(l, v, k - 1)
  }

  lemma {:induction false} JudgedHas(l: Listing, v: Verdict, k: nat, i: nat)
    requires |l.locks| == |l.verdicts| && i < k <= |l.locks| && l.verdicts[i] == v
    ensures l.locks[i] in Judged(l, v, k)
  {
    if i < k - 1 {
      JudgedHas(l, v, k - 1, i);
    }
  }

  lemma {:induction false} JudgedOnly(l: Listing, v: Verdict, k: nat, x: Lock) returns (i: nat)
    requires |l.locks| == |l.verdicts| && k <= |l.locks| && x in Judged(l, v, k)
    ensures i < k && l.verdicts[i] == v && l.locks[i] == x
  {
    if l.verdicts[k - 1] == v && l.locks[k - 1] == x {
      i := k - 1;
    } else {
      i := JudgedOnly(l, v, k - 1, x);
    }
  }

  /** An acquisition in progress: it holds the mutex, has listed the store and judged what it found, and
      has `stale` left to delete. `requested` is absent if a requested path cannot be normalized. */
  datatype Attempt = Attempt(id: TaskId, requested: Option<seq<Path>>, listing: Listing, survivors: seq<Lock>,
                             stale: seq<Lock>)

  datatype Report =
    | Acquired(id: TaskId, paths: seq<Path>)
    | Conflict(id: TaskId, requested: seq<Path>, named: TaskId, path: Path, listing: Listing)
    | Failed(id: TaskId)

  datatype World = World(store: Store, holder: Option<Attempt>, reports: seq<Report>)

  /** A write to the store works, fails without a trace, or takes effect and still reports failure. */
  datatype Fault = Works | FailsClean | FailsLate

  datatype Step =
    | Begin(id: TaskId, requested: Option<seq<Path>>, listing: Listing)
    | DeleteStale(fault: Fault)
    | Decide(fault: Fault)
    | Abandon
    | ReleaseLock(id: TaskId)

  ghost predicate StoredOk(locks: seq<Lock>) {
    forall i, j :: 0 <= i < |locks| && 0 <= j < |locks[i].paths| ==> NormalizedPath(locks[i].paths[j])
  }

  ghost function Decided(w: World, a: Attempt, fault: Fault): World {
    if a.requested.None? then World(w.store, None, w.reports + [Failed(a.id)])
    else if a.requested.value == [] then World(w.store, None, w.reports + [Acquired(a.id, [])])
    else if !StoredOk(a.survivors) then World(w.store, None, w.reports + [Failed(a.id)])
    else
      var paths := a.requested.value;
      var named := FirstConflict(paths, a.survivors, 0);
      if named.Some? then
        World(w.store, None, w.reports + [Conflict(a.id, paths, named.value.0, named.value.1, a.listing)])
      else
        World(if fault == FailsClean then w.store else w.store[a.id := paths], None,
              w.reports + [if fault == Works then Acquired(a.id, paths) else Failed(a.id)])
  }

  ghost function Next(w: World, e: Step): World {
    match e
    case ReleaseLock(id) => w.(store := w.store - {id})
    case Begin(id, requested, l) =>
      if w.holder.Some? || !ListingOf(l, w.store) then w
      else if GiveUp in l.verdicts then w.(reports := w.reports + [Failed(id)])
      else w.(holder := Some(Attempt(id, requested, l, Judged(l, Alive, |l.locks|), Judged(l, Dead, |l.locks|))))
    case DeleteStale(fault) =>
      if w.holder.None? || w.holder.value.stale == [] then w
      else
        var a := w.holder.value;
        var store := if fault == FailsClean then w.store else w.store - {a.stale[0].id};
        if fault == Works then w.(store := store, holder := Some(a.(stale := a.stale[1..])))
        else World(store, None, w.reports + [Failed(a.id)])
    case Decide(fault) => if w.holder.None? || w.holder.value.stale != [] then w else Decided(w, w.holder.value, fault)
    case Abandon => w.(holder := None)
  }

  // ---- what every step keeps ----

  /** Locks of different tasks have no path in common. */
  ghost predicate Exclusive(store: Store) {
    forall a, b :: a in store && b in store && a != b ==> Disjoint(store[a], store[b])
  }

  /** While an acquirer holds the mutex the store only shrinks, so it holds no more than the survivors
      and the stale locks still to be deleted. */
  ghost predicate Covered(w: World) {
    w.holder.Some? ==>
      var a := w.holder.value;
      && |a.listing.locks| == |a.listing.verdicts|
      && a.survivors == Judged(a.listing, Alive, |a.listing.locks|)
      && forall id :: id in w.store ==> Lock(id, w.store[id]) in a.stale || Lock(id, w.store[id]) in a.survivors
  }

  /** A reported conflict names a requested path that the named task owned, alive, when the store was
      listed. */
  ghost predicate Truthful(r: Report) {
    r.Conflict? ==>
      r.path in r.requested && |r.listing.locks| == |r.listing.verdicts|
      && exists i :: 0 <= i < |r.listing.locks| && r.listing.verdicts[i] == Alive && r.listing.locks[i].id == r.named
                     && r.path in r.listing.locks[i].paths
  }

  ghost predicate Ok(w: World) {
    Exclusive(w.store) && Covered(w) && forall i :: 0 <= i < |w.reports| ==> Truthful(w.reports[i])
  }

  lemma BeginOk(w: World, id: TaskId, requested: Option<seq<Path>>, l: Listing)
    requires Ok(w)
    ensures Ok(Next(w, Begin(id, requested, l)))
  {
    var n := Next(w, Begin(id, requested, l));
    if n.holder.Some? && n.holder != w.holder {
      var a := n.holder.value;
      forall id | id in w.store ensures Lock(id, w.store[id]) in a.stale || Lock(id, w.store[id]) in a.survivors {
        var i :| 0 <= i < |l.locks| && l.locks[i].id == id;
        var verdict := l.verdicts[i];
        assert l.locks[i] == Lock(id, w.store[id]) && verdict in l.verdicts;
        assert verdict == Alive || verdict == Dead || verdict == GiveUp;
        JudgedHas(l, verdict, |l.locks|, i);
      }
    }
  }

  lemma DeleteOk(w: World, fault: Fault)
    requires Ok(w)
    ensures Ok(Next(w, DeleteStale(fault)))
  {
    if w.holder.Some? && w.holder.value.stale != [] {
      var stale := w.holder.value.stale;
      assert stale == [stale[0]] + stale[1..];
    }
  }

  lemma SavedExclusive(store: Store, id: TaskId, paths: seq<Path>, survivors: seq<Lock>)
    requires Exclusive(store) && Free(paths, survivors) && forall other :: other in store ==>
               Lock(other, store[other]) in survivors
    ensures Exclusive(store[id := paths])
  {
    forall other | other in store ensures Disjoint(paths, store[other]) {
      var i :| 0 <= i < |survivors| && survivors[i] == Lock(other, store[other]);
      assert Disjoint(paths, survivors[i].paths);
    }
  }

  lemma ConflictTruthful(a: Attempt, paths: seq<Path>)
    requires |a.listing.locks| == |a.listing.verdicts| && a.survivors == Judged(a.listing, Alive, |a.listing.locks|)
    requires FirstConflict(paths, a.survivors, 0).Some?
    ensures var named := FirstConflict(paths, a.survivors, 0).value;
            Truthful(Conflict(a.id, paths, named.0, named.1, a.listing))
  {
    FirstConflictMeans(paths, a.survivors, 0);
    var named := FirstConflict(paths, a.survivors, 0).value;
    var i :| 0 <= i < |a.survivors| && a.survivors[i].id == named.0 && named.1 in a.survivors[i].paths;
    var j := JudgedOnly(a.listing, Alive, |a.listing.locks|, a.survivors[i]);
    assert a.listing.locks[j].id == named.0;
  }

  lemma ReportedOk(w: World, store: Store, r: Report)
    requires Ok(w) && Exclusive(store) && Truthful(r)
    ensures Ok(World(store, None, w.reports + [r]))
  {
  }

  lemma DecidedOk(w: World, a: Attempt, paths: seq<Path>, fault: Fault)
    requires Ok(w) && w.holder == Some(a) && a.stale == [] && a.requested == Some(paths) && paths != []
    requires StoredOk(a.survivors)
    ensures Ok(Decided(w, a, fault))
  {
    FirstConflictMeans(paths, a.survivors, 0);
    var named := FirstConflict(paths, a.survivors, 0);
    if named.Some? {
      ConflictTruthful(a, paths);
      ReportedOk(w, w.store, Conflict(a.id, paths, named.value.0, named.value.1, a.listing));
    } else {
      SavedExclusive(w.store, a.id, paths, a.survivors);
      var store := if fault == FailsClean then w.store else w.store[a.id := paths];
      ReportedOk(w, store, if fault == Works then Acquired(a.id, paths) else Failed(a.id));
    }
  }

  lemma DecideOk(w: World, fault: Fault)
    requires Ok(w)
    ensures Ok(Next(w, Decide(fault)))
  {
    if w.holder.Some? && w.holder.value.stale == [] {
      var a := w.holder.value;
      if a.requested.Some? && a.requested.value != [] && StoredOk(a.survivors) {
        DecidedOk(w, a, a.requested.value, fault);
      } else {
        ReportedOk(w, w.store, Failed(a.id));
        ReportedOk(w, w.store, Acquired(a.id, []));
      }
    }
  }

  lemma NextOk(w: World, e: Step)
    requires Ok(w)
    ensures Ok(Next(w, e))
  {
    match e
    case Begin(id, requested, l) => BeginOk(w, id, requested, l);
    case DeleteStale(fault) => DeleteOk(w, fault);
    case Decide(fault) => DecideOk(w, fault);
    case _ =>
  }

  ghost function Run(w: World, steps: seq<Step>): World
    decreases |steps|
  {
    if steps == [] then w else Run(Next(w, steps[0]), steps[1..])
  }

  const NOTHING: World := World(map[], None, [])

  /** Across any interleaving of acquisitions, releases and failures, locks of different tasks stay
      disjoint and every conflict reported is real. */
  lemma {:induction false} EveryRunOk(w: World, steps: seq<Step>)
    requires Ok(w)
    ensures Ok(Run(w, steps))
    decreases |steps|
  {
    if steps != [] {
      NextOk(w, steps[0]);
      EveryRunOk(Next(w, steps[0]), steps[1..]);
    }
  }

  lemma {:induction false} RunAppend(w: World, steps: seq<Step>, e: Step)
    ensures Run(w, steps + [e]) == Next(Run(w, steps), e)
    decreases |steps|
  {
    if steps == [] {
      assert [] + [e] == [e] && [e][1..] == [];
    } else {
      assert (steps + [e])[1..] == steps[1..] + [e];
      RunAppend(Next(w, steps[0]), steps[1..], e);
    }
  }
}
