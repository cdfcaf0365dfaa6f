/** Planning which task placements to evict: by age, then oldest first until the disk budget is met
    (internal/store/taskplacementstore.go). */
module Eviction {
  import opened Options
  import opened Utf8
  import opened Sorting
  import F = Fingerprint

  /** Instants and durations in nanoseconds. */
  type Nanos = int

  const MAX_INT64: int := 0x7fff_ffff_ffff_ffff
  const DAY: Nanos := 86_400_000_000_000
  const UNKNOWN: int := -1

  /** One directory entry: its measured size, if measuring worked, and the creation time of the ended
      task it holds, if it holds one. */
  datatype Placement = Placement(id: seq<Byte>, size: Option<nat>, created: Option<Nanos>)

  datatype Policy = Policy(days: int, budget: int, now: Nanos)

  datatype Candidate = Candidate(id: seq<Byte>, size: nat, created: Nanos, retention: bool)

  function Wrapped(x: int): int {
    (x + MAX_INT64 + 1) % (2 * (MAX_INT64 + 1)) - (MAX_INT64 + 1)
  }

  function Saturated(x: int): int {
    if x > MAX_INT64 then MAX_INT64 else if x < -MAX_INT64 - 1 then -MAX_INT64 - 1 else x
  }

  function Age(policy: Policy, created: Nanos): Nanos {
    Saturated(policy.now - created)
  }

  /** 64-bit arithmetic: a huge number of days wraps around. */
  predicate Expired(policy: Policy, created: Nanos) {
    Age(policy, created) >= Wrapped(policy.days * DAY)
  }

  lemma WrappedRange(x: int)
    ensures -MAX_INT64 - 1 <= Wrapped(x) <= MAX_INT64
    ensures 0 <= x <= MAX_INT64 ==> Wrapped(x) == x
  {
  }

  /** The retention rule means what it says if and only if the period fits in 64 bits. */
  lemma RetentionExact(p: Policy)
    requires p.days >= 0
    ensures (forall created :: Expired(p, created) <==> Age(p, created) >= p.days * DAY) <==> p.days * DAY <= MAX_INT64
  {
    WrappedRange(p.days * DAY);
    if p.days * DAY > MAX_INT64 {
      var oldest := p.now - MAX_INT64;
      assert Age(p, oldest) == MAX_INT64;
      assert Expired(p, oldest) && Age(p, oldest) < p.days * DAY;
    }
  }

  /** A period of 106752 days is one too many: a task created this instant counts as expired. */
  lemma RetentionWraps(now: Nanos)
    ensures Expired(Policy(106_752, 0, now), now) && 106_751 * DAY <= MAX_INT64 < 106_752 * DAY
  {
  }

  predicate Evictable(p: Placement, policy: Policy) {
    p.size.Some? && p.created.Some? && Age(policy, p.created.value) >= 0
  }

  function CandidateOf(p: Placement, policy: Policy): Candidate
    requires Evictable(p, policy)
  {
    Candidate(p.id, p.size.value, p.created.value, Expired(policy, p.created.value))
  }

  function Eligible(placements: seq<Placement>, policy: Policy): seq<Candidate> {
    if placements == [] then []
    else
      var n := |placements| - 1;
      Eligible(placements[..n], policy)
      + if Evictable(placements[n], policy) then [CandidateOf(placements[n], policy)] else []
  }

  /** A task is eligible exactly if it was measured, has ended and was not created in the future; each eligible one
      is a candidate once, in the order of the placements, with its own size and age. */
  lemma {:induction false} EligibleExact(placements: seq<Placement>, policy: Policy) returns (from: seq<nat>)
    ensures |from| == |Eligible(placements, policy)|
    ensures forall j :: 0 <= j < |from| ==> from[j] < |placements|
    ensures forall i, j :: 0 <= i < j < |from| ==> from[i] < from[j]
    ensures forall i :: 0 <= i < |placements| ==> (i in from <==> IsEligible(placements[i], policy))
    ensures forall j :: 0 <= j < |from| ==> IsCandidate(Eligible(placements, policy)[j], placements[from[j]], policy)
  {
    from := [];
    if placements != [] {
      var n := |placements| - 1;
      var before := EligibleExact(placements[..n], policy);
      from := before;
      if Evictable(placements[n], policy) {
        from := from + [n];
      }
      forall i | 0 <= i < |placements|
        ensures i in from <==> IsEligible(placements[i], policy)
      {
        if i < n {
          assert placements[..n][i] == placements[i];
        }
      }
    }
  }

  predicate IsEligible(p: Placement, policy: Policy) {
    p.size.Some? && p.created.Some? && p.created.value <= policy.now
  }

  predicate IsCandidate(c: Candidate, p: Placement, policy: Policy) {
    && p.size.Some? && p.created.Some? && c.id == p.id && c.size == p.size.value && c.created == p.created.value
    && (c.retention <==> Expired(policy, c.created))
  }

  /** The total size, unless some placement could not be measured. */
  function Current(placements: seq<Placement>): int {
    if placements == [] then 0
    else
      var n := |placements| - 1;
      if placements[n].size.None? || Current(placements[..n]) == UNKNOWN then UNKNOWN
      else Current(placements[..n]) + placements[n].size.value
  }

  /** The sizes added up, an unmeasured one counting for nothing. */
  function Sum(placements: seq<Placement>): nat {
    if placements == [] then 0
    else (if placements[0].size.Some? then placements[0].size.value else 0) + Sum(placements[1..])
  }

  lemma {:induction false} SumAppend(placements: seq<Placement>, p: Placement)
    ensures Sum(placements + [p]) == Sum(placements) + if p.size.Some? then p.size.value else 0
  {
    if placements == [] {
      assert [p][1..] == [] && [] + [p] == [p];
    } else {
      assert (placements + [p])[1..] == placements[1..] + [p];
      SumAppend(placements[1..], p);
    }
  }

  lemma {:induction false} CurrentIsSum(placements: seq<Placement>)
    ensures Current(placements) ==
            if forall i :: 0 <= i < |placements| ==> placements[i].size.Some? then Sum(placements) else UNKNOWN
  {
    if placements != [] {
      var n := |placements| - 1;
      CurrentIsSum(placements[..n]);
      SumAppend(placements[..n], placements[n]);
      assert placements[..n] + [placements[n]] == placements;
      assert forall i :: 0 <= i < n ==> placements[..n][i] == placements[i];
    }
  }

  function Bytes(cs: seq<Candidate>): nat {
    if cs == [] then 0 else Bytes(cs[..|cs| - 1]) + cs[|cs| - 1].size
  }

  // ---- the order ----

  predicate Earlier(a: Candidate, b: Candidate) {
    if a.created == b.created then F.Before(a.id, b.id) else a.created < b.created
  }

  /** The older one first; of the same age, the one with the smaller identifier. */
  lemma EarlierMeans(a: Candidate, b: Candidate)
    ensures a.created < b.created ==> Earlier(a, b) && !Earlier(b, a)
    ensures a.created == b.created && a.id != b.id ==>
              (Earlier(a, b) <==> F.Before(a.id, b.id)) && (Earlier(a, b) <==> !Earlier(b, a))
  {
    F.BeforeTotal(a.id, b.id);
  }

  lemma EarlierWeak()
    ensures Weak(Earlier)
  {
    forall a: Candidate, b: Candidate
      ensures !F.Before(a.id, a.id) && (F.Before(a.id, b.id) ==> !F.Before(b.id, a.id))
    {
      F.BeforeTotal(a.id, b.id);
    }
    forall a, b, c | !Earlier(b, a) && !Earlier(c, b) ensures !Earlier(c, a) {
      F.BeforeTotal(a.id, b.id);
      F.BeforeTotal(b.id, c.id);
      F.BeforeTotal(a.id, c.id);
      if F.Before(a.id, b.id) && F.Before(b.id, c.id) {
        F.BeforeTransitive(a.id, b.id, c.id);
      }
    }
  }

  /** Older candidates expire first, so in order of age the expired ones come first. */
  ghost predicate ExpiredFirst(ordered: seq<Candidate>) {
    forall i, j :: 0 <= i < j < |ordered| && ordered[j].retention ==> ordered[i].retention
  }

  lemma {:induction false} EligibleRetention(placements: seq<Placement>, policy: Policy)
    ensures forall c :: c in Eligible(placements, policy) ==> c.retention == Expired(policy, c.created)
  {
    if placements != [] {
      EligibleRetention(placements[..|placements| - 1], policy);
    }
  }

  lemma {:induction false} EligibleWithinCurrent(placements: seq<Placement>, policy: Policy)
    ensures Current(placements) == UNKNOWN || Bytes(Eligible(placements, policy)) <= Current(placements)
  {
    if placements != [] {
      var n := |placements| - 1;
      EligibleWithinCurrent(placements[..n], policy);
      if Evictable(placements[n], policy) {
        BytesAppend(Eligible(placements[..n], policy), [CandidateOf(placements[n], policy)]);
      } else {
        BytesAppend(Eligible(placements[..n], policy), []);
      }
    }
  }

  lemma OrderedExpiredFirst(ordered: seq<Candidate>, eligible: seq<Candidate>, policy: Policy)
    requires SortOf(ordered, eligible, Earlier)
    requires forall c :: c in eligible ==> c.retention == Expired(policy, c.created)
    ensures ExpiredFirst(ordered)
  {
    forall i, j | 0 <= i < j < |ordered| && ordered[j].retention ensures ordered[i].retention {
      assert ordered[i] in multiset(eligible) && ordered[j] in multiset(eligible);
      assert !Earlier(ordered[j], ordered[i]);
    }
  }

  lemma {:induction false} BytesAppend(s: seq<Candidate>, t: seq<Candidate>)
    ensures Bytes(s + t) == Bytes(s) + Bytes(t)
    decreases |t|
  {
    if t == [] {
      assert s + t == s;
    } else {
      assert (s + t)[..|s + t| - 1] == s + t[..|t| - 1];
      BytesAppend(s, t[..|t| - 1]);
    }
  }

  lemma BytesBetween(a: seq<Candidate>, x: Candidate, b: seq<Candidate>)
    ensures Bytes(a + [x] + b) == Bytes(a + b) + x.size
  {
    BytesAppend(a + [x], b);
    BytesAppend(a, [x]);
    BytesAppend(a, b);
    assert [x][..0] == [] && Bytes([x]) == x.size;
  }

  lemma TakeOut(s: seq<Candidate>, x: Candidate) returns (others: seq<Candidate>)
    requires x in multiset(s)
    ensures |others| == |s| - 1 && multiset(others) == multiset(s) - multiset{x} && Bytes(s) == Bytes(others) + x.size
  {
    var i :| 0 <= i < |s| && s[i] == x;
    others := s[..i] + s[i + 1..];
    WithoutElement(s, i);
    BytesBetween(s[..i], x, s[i + 1..]);
    assert s == s[..i] + [x] + s[i + 1..];
  }

  lemma {:induction false} BytesPermutation(r: seq<Candidate>, s: seq<Candidate>)
    requires multiset(r) == multiset(s)
    ensures Bytes(r) == Bytes(s)
    decreases |r|
  {
    assert |r| == |multiset(r)| && |s| == |multiset(s)|;
    if r != [] {
      var rest := TakeOut(r, r[0]);
      var others := TakeOut(s, r[0]);
      BytesPermutation(rest, others);
    }
  }

  // ---- the plan ----

  /** Whether evicting the first j candidates is enough: all expired ones, and down to the budget where
      the total is known and a budget is set, or everything there is. */
  ghost predicate Enough(ordered: seq<Candidate>, j: nat, current: int, budget: int)
    requires j <= |ordered|
  {
    && (forall i :: j <= i < |ordered| ==> !ordered[i].retention)
    && (current != UNKNOWN && budget > 0 ==> current - Bytes(ordered[..j]) <= budget || j == |ordered|)
  }

  ghost predicate Shortest(ordered: seq<Candidate>, k: nat, current: int, budget: int) {
    k <= |ordered| && Enough(ordered, k, current, budget) && forall j :: 0 <= j < k ==>
        !Enough(ordered, j, current, budget)
  }

  function Projected(current: int, chosen: seq<Candidate>): int {
    if current == UNKNOWN then UNKNOWN else current - Bytes(chosen)
  }

  /** First pass: the expired ones. */
  method TakeExpired(ordered: seq<Candidate>, current: int)
    returns (chosen: seq<Candidate>, projected: int, ghost k: nat)
    requires ExpiredFirst(ordered) && (current == UNKNOWN || Bytes(ordered) <= current)
    ensures k <= |ordered| && chosen == ordered[..k] && projected == Projected(current, chosen)
    ensures forall i :: 0 <= i < |ordered| ==> (ordered[i].retention <==> i < k)
  {
    chosen, projected, k := [], current, 0;
    for i := 0 to |ordered|
      invariant k <= i && chosen == ordered[..k] && projected == Projected(current, chosen)
      invariant k == i || !ordered[k].retention
      invariant forall j :: 0 <= j < i ==> (ordered[j].retention <==> j < k)
    {
      var c := ordered[i];
      if c.retention {
        PrefixGrows(ordered, i);
        WithinTotal(ordered, i + 1, current);
        chosen := chosen + [c];
        if projected != UNKNOWN {
          projected := projected - c.size;
        }
        k := i + 1;
      }
    }
  }

  lemma PrefixGrows(ordered: seq<Candidate>, k: nat)
    requires k < |ordered|
    ensures ordered[..k + 1] == ordered[..k] + [ordered[k]]
    ensures Bytes(ordered[..k + 1]) == Bytes(ordered[..k]) + ordered[k].size
  {
    assert ordered[..k + 1][..k] == ordered[..k];
  }

  lemma WithinTotal(ordered: seq<Candidate>, k: nat, current: int)
    requires k <= |ordered| && (current == UNKNOWN || Bytes(ordered) <= current)
    ensures current == UNKNOWN || Bytes(ordered[..k]) <= current
  {
    BytesAppend(ordered[..k], ordered[k..]);
    assert ordered == ordered[..k] + ordered[k..];
  }

  /** Second pass: further ones, oldest first, while over the budget. */
  method TakeForBudget(ordered: seq<Candidate>, current: int, budget: int, before: seq<Candidate>, left: int,
                       ghost expired: nat)
    returns (chosen: seq<Candidate>, projected: int, ghost k: nat)
    requires expired <= |ordered| && before == ordered[..expired]
    requires forall i :: 0 <= i < |ordered| ==> (ordered[i].retention <==> i < expired)
    requires current != UNKNOWN && left == current - Bytes(before) > budget > 0
    ensures expired <= k <= |ordered| && chosen == ordered[..k] && projected == current - Bytes(chosen)
    ensures projected <= budget || k == |ordered|
    ensures forall j :: expired <= j < k ==> current - Bytes(ordered[..j]) > budget
  {
    chosen, projected, k := before, left, expired;
    for i := 0 to |ordered|
      invariant expired <= k <= |ordered| && chosen == ordered[..k] && projected == current - Bytes(chosen)
      invariant if i <= expired then k == expired && projected > budget else k <= i && (projected > budget ==> k == i)
      invariant forall j :: expired <= j < k ==> current - Bytes(ordered[..j]) > budget
    {
      var c := ordered[i];
      if !c.retention && projected > budget {
        PrefixGrows(ordered, i);
        chosen := chosen + [c];
        projected := projected - c.size;
        k := i + 1;
      }
    }
  }

  datatype Plan = Invalid | Overflow | Planned(candidates: seq<Candidate>, current: int, projected: int)

  /** Measuring: the running total gives up at the first unmeasurable entry and refuses to overflow. */
  method Measure(placements: seq<Placement>, policy: Policy) returns (overflow: bool, current: int, all: seq<Candidate>)
    ensures overflow <==> exists i :: 0 <= i <= |placements| && Current(placements[..i]) > MAX_INT64
    ensures !overflow ==> current == Current(placements) && all == Eligible(placements, policy)
  {
    overflow, current, all := false, 0, [];
    for i := 0 to |placements|
      invariant !overflow && current == Current(placements[..i]) && UNKNOWN <= current <= MAX_INT64
      invariant all == Eligible(placements[..i], policy)
      invariant forall j :: 0 <= j <= i ==> Current(placements[..j]) <= MAX_INT64
    {
      var p := placements[i];
      assert placements[..i + 1][..i] == placements[..i];
      if p.size.None? {
        current := UNKNOWN;
        continue;
      }
      if current != UNKNOWN && current > MAX_INT64 - p.size.value {
        return true, current, all;
      }
      if current != UNKNOWN {
        current := current + p.size.value;
      }
      if Evictable(p, policy) {
        all := all + [CandidateOf(p, policy)];
      }
    }
    assert placements[..|placements|] == placements;
  }

  predicate PolicyOk(policy: Policy) {
    policy.days >= 0 && policy.budget >= 0 && policy.now != 0
  }

  /** The plan is exactly the shortest sufficient prefix of the eligible tasks in order of age; the
      projection is what remains, never negative, so that -1 can only mean unknown. */
  ghost predicate Correct(plan: Plan, placements: seq<Placement>, policy: Policy, ordered: seq<Candidate>, k: nat) {
    && plan.Planned? && SortOf(ordered, Eligible(placements, policy), Earlier)
    && Shortest(ordered, k, Current(placements), policy.budget)
    && plan.candidates == ordered[..k] && plan.current == Current(placements)
    && plan.projected == Projected(plan.current, plan.candidates)
    && (plan.projected == UNKNOWN <==> exists i :: 0 <= i < |placements| && placements[i].size.None?)
    && (plan.projected != UNKNOWN ==> plan.projected >= 0)
  }

  lemma {:induction false} CurrentKnown(placements: seq<Placement>)
    ensures Current(placements) == UNKNOWN <==> exists i :: 0 <= i < |placements| && placements[i].size.None?
    ensures Current(placements) >= UNKNOWN
  {
    if placements != [] {
      var n := |placements| - 1;
      CurrentKnown(placements[..n]);
      if i :| 0 <= i < n && placements[..n][i].size.None? {
        assert placements[i].size.None?;
      }
    }
  }

  lemma ExpiredPrefixShortest(ordered: seq<Candidate>, k: nat, current: int, budget: int)
    requires k <= |ordered| && forall i :: 0 <= i < |ordered| ==> (ordered[i].retention <==> i < k)
    requires current == UNKNOWN || current - Bytes(ordered[..k]) <= budget || budget <= 0
    ensures Shortest(ordered, k, current, budget)
  {
    forall j | 0 <= j < k ensures !Enough(ordered, j, current, budget) {
      assert ordered[k - 1].retention;
    }
  }

  lemma BudgetPrefixShortest(ordered: seq<Candidate>, expired: nat, k: nat, current: int, budget: int)
    requires expired <= k <= |ordered| && forall i :: 0 <= i < |ordered| ==> (ordered[i].retention <==> i < expired)
    requires current != UNKNOWN && budget > 0 && (current - Bytes(ordered[..k]) <= budget || k == |ordered|)
    requires forall j :: expired <= j < k ==> current - Bytes(ordered[..j]) > budget
    ensures Shortest(ordered, k, current, budget)
  {
    forall j | 0 <= j < k ensures !Enough(ordered, j, current, budget) {
      if j < expired {
        assert ordered[expired - 1].retention;
      }
    }
  }

  method Choose(ordered: seq<Candidate>, current: int, budget: int)
    returns (chosen: seq<Candidate>, projected: int, ghost k: nat)
    requires ExpiredFirst(ordered) && (current == UNKNOWN || Bytes(ordered) <= current)
    ensures Shortest(ordered, k, current, budget) && chosen == ordered[..k]
    ensures projected == Projected(current, chosen) && (current != UNKNOWN ==> projected >= 0)
  {
    chosen, projected, k := TakeExpired(ordered, current);
    WithinTotal(ordered, k, current);
    if projected != UNKNOWN && projected > budget && budget > 0 {
      ghost var expired := k;
      chosen, projected, k := TakeForBudget(ordered, current, budget, chosen, projected, k);
      BudgetPrefixShortest(ordered, expired, k, current, budget);
    } else {
      ExpiredPrefixShortest(ordered, k, current, budget);
    }
    WithinTotal(ordered, k, current);
  }

  method MakePlan(placements: seq<Placement>, policy: Policy) returns (plan: Plan)
    ensures plan.Invalid? <==> !PolicyOk(policy)
    ensures plan.Overflow? <==>
              PolicyOk(policy) && exists i :: 0 <= i <= |placements| && Current(placements[..i]) > MAX_INT64
    ensures plan.Planned? ==> exists ordered, k :: Correct(plan, placements, policy, ordered, k)
  {
    if !PolicyOk(policy) {
      return Invalid;
    }
    var overflow, current, all := Measure(placements, policy);
    if overflow {
      return Overflow;
    }
    EarlierWeak();
    var ordered := Sort(all, Earlier);
    EligibleRetention(placements, policy);
    EligibleWithinCurrent(placements, policy);
    CurrentKnown(placements);
    OrderedExpiredFirst(ordered, all, policy);
    BytesPermutation(ordered, all);
    ghost var k;
    var chosen, projected;
    chosen, projected, k := Choose(ordered, current, policy.budget);
    plan := Planned(chosen, current, projected);
    assert Correct(plan, placements, policy, ordered, k);
  }
}
