/** The pending-reconciliation set as the object its callers share; every method body runs under its
    mutex (internal/recovery/pending.go). */
module PendingSet {
  import opened Options
  import opened TaskDomain
  import opened PendingModel

  class PendingReconciliationSet {
    var entries: map<TaskId, Entry>
    var nextToken: nat
    /** Claims granted so far, and the tokens settled with success, both in order. */
    ghost var granted: seq<Claim>
    ghost var settled: seq<nat>

    ghost function View(): Pending
      reads this
    {
      Pending(entries, nextToken)
    }

    ghost function History(): World
      reads this
    {
      World(View(), granted, settled)
    }

    /** Tokens are unique, each granted claim either owns its entry or was settled once. */
    ghost predicate Valid()
      reads this
    {
      Exclusive(History())
    }

    constructor ()
      ensures History() == INITIAL && Valid()
    {
      entries, nextToken, granted, settled := map[], 0, [], [];
    }

    /** Registers a task; a claimed one stays exactly as it is, so its owner loses nothing. */
    method Register(id: TaskId, d: Disposition, a: Option<Authority>) returns (r: Registration)
      requires Valid()
      modifies this
      ensures Valid() && History() == Next(old(History()), RegisterOp(id, d, a))
      ensures forall i :: 0 <= i < |granted| ==> (Owns(View(), granted[i]) <==> Owns(old(View()), granted[i]))
      ensures (View(), r) == PendingModel.Register(old(View()), id, d, a)
    {
      r := Enter(id, d, a);
      NextExclusive(old(History()), RegisterOp(id, d, a));
    }

    method Enter(id: TaskId, d: Disposition, a: Option<Authority>) returns (r: Registration)
      modifies `entries
      ensures (View(), r) == PendingModel.Register(old(View()), id, d, a)
    {
      if !RegistrationOk(id, d, a) {
        return Invalid;
      }
      if id !in entries {
        entries := entries[id := NewEntry(id, d, a)];
        return Registered;
      }
      var e := entries[id];
      match e.stage {
        case Claimed => return AlreadyClaimed;
        case Sent =>
        case Unsent =>
          match d {
            case DispUnsent => e := e.(authority := a.value);
            case DispSent => e := e.(stage := Sent, authority := NO_AUTHORITY, token := 0);
            case DispConfirmOnly => e := e.(stage := ConfirmOnly, authority := NO_AUTHORITY, token := 0);
          }
        case ConfirmOnly =>
          if d == DispSent {
            e := e.(stage := Sent);
          }
      }
      entries := entries[id := e];
      r := Registered;
    }

    /** A claim granted carries a token nobody was ever given, and is the only one on its task. */
    method ClaimForSend(id: TaskId, a: Authority) returns (outcome: ClaimOutcome)
      requires Valid()
      modifies this
      ensures Valid() && History() == Next(old(History()), ClaimOp(id, a))
      ensures (View(), outcome) == PendingModel.ClaimForSend(old(View()), id, a)
      ensures outcome.Acquired? ==> Granted(old(History()), outcome.claim, View()) && outcome.claim.authority == a
    {
      if id in entries {
        outcome := Claim(id, a, false);
      } else {
        outcome := NotFound;
      }
      if outcome.Acquired? {
        granted := granted + [outcome.claim];
      }
      NextExclusive(old(History()), ClaimOp(id, a));
    }

    /** The same for the first sender, who need not have been registered. */
    method ClaimInitialSend(id: TaskId, a: Authority) returns (outcome: ClaimOutcome)
      requires Valid()
      modifies this
      ensures Valid() && History() == Next(old(History()), InitialOp(id, a))
      ensures (View(), outcome) == PendingModel.ClaimInitialSend(old(View()), id, a)
      ensures outcome.Acquired? ==> Granted(old(History()), outcome.claim, View()) && outcome.claim.authority == a
    {
      if id !in entries {
        nextToken := nextToken + 1;
        entries := entries[id := Entry(id, Claimed, a, nextToken, false)];
        outcome := Acquired(PendingModel.Claim.Claim(id, nextToken, a));
      } else {
        outcome := Claim(id, a, true);
      }
      if outcome.Acquired? {
        granted := granted + [outcome.claim];
      }
      NextExclusive(old(History()), InitialOp(id, a));
    }

    method Claim(id: TaskId, a: Authority, initial: bool) returns (outcome: ClaimOutcome)
      requires id in entries
      modifies `entries, `nextToken
      ensures (View(), outcome) == ClaimEntry(old(View()), id, a, initial)
    {
      var e := entries[id];
      match e.stage
      case Claimed => return Busy;
      case Sent => return WasSent;
      case ConfirmOnly => return MustConfirm;
      case Unsent =>
        if e.authority != a {
          entries := entries[id := e.(stage := ConfirmOnly, authority := NO_AUTHORITY, token := 0, initial := false)];
          return MustConfirm;
        }
        nextToken := nextToken + 1;
        entries := entries[id := e.(stage := Claimed, token := nextToken, initial := initial)];
        return Acquired(PendingModel.Claim.Claim(id, nextToken, e.authority));
    }

    method CompleteSend(claim: PendingModel.Claim) returns (ok: bool)
      requires Valid()
      modifies this
      ensures Valid() && SettledAs(old(History()), claim, Complete, History(), ok)
    {
      ok := claim.taskId in entries && entries[claim.taskId].stage == Claimed
          && entries[claim.taskId].token == claim.token;
      if ok {
        entries := entries[claim.taskId := entries[claim.taskId].(stage := Sent, authority := NO_AUTHORITY,
                initial := false)];
        settled := settled + [claim.token];
      }
      SettleKeeps(old(History()), claim, Complete);
    }

    method ReleaseSend(claim: PendingModel.Claim) returns (ok: bool)
      requires Valid()
      modifies this
      ensures Valid() && SettledAs(old(History()), claim, Release, History(), ok)
    {
      ok := claim.taskId in entries && entries[claim.taskId].stage == Claimed
          && entries[claim.taskId].token == claim.token;
      if ok {
        entries := entries[claim.taskId := entries[claim.taskId].(stage := Unsent, initial := false)];
        settled := settled + [claim.token];
      }
      SettleKeeps(old(History()), claim, Release);
    }

    method InvalidateSend(claim: PendingModel.Claim) returns (ok: bool)
      requires Valid()
      modifies this
      ensures Valid() && SettledAs(old(History()), claim, Invalidate, History(), ok)
    {
      ok := false;
      if claim.taskId in entries {
        var e := entries[claim.taskId];
        ok := e.stage == Claimed && e.token == claim.token && e.taskId == claim.taskId;
        if ok {
          entries := entries[claim.taskId := e.(stage := ConfirmOnly, authority := NO_AUTHORITY, token := 0,
                  initial := false)];
          settled := settled + [claim.token];
        }
      }
      SettleKeeps(old(History()), claim, Invalidate);
    }

    method RemoveClaim(claim: PendingModel.Claim) returns (ok: bool)
      requires Valid()
      modifies this
      ensures Valid() && SettledAs(old(History()), claim, Settlement.RemoveClaim, History(), ok)
    {
      ok := false;
      if claim.taskId in entries {
        var e := entries[claim.taskId];
        ok := e.stage == Claimed && e.taskId == claim.taskId && e.token == claim.token;
        if ok && e.initial {
          entries := entries[claim.taskId := e.(stage := Unsent, token := 0, initial := false)];
          settled := settled + [claim.token];
        } else if ok {
          entries := entries - {claim.taskId};
          settled := settled + [claim.token];
        }
      }
      SettleKeeps(old(History()), claim, Settlement.RemoveClaim);
    }

    /** Removes an entry, but never from under the owner of a claim. */
    method Remove(id: TaskId)
      requires Valid()
      modifies this
      ensures Valid() && History() == Next(old(History()), RemoveOp(id))
      ensures forall i :: 0 <= i < |granted| ==> (Owns(View(), granted[i]) <==> Owns(old(View()), granted[i]))
    {
      if id !in entries || entries[id].stage != Claimed {
        entries := entries - {id};
      }
      NextExclusive(old(History()), RemoveOp(id));
    }
  }

  /** A new token, and the only claim outstanding on its task. */
  ghost predicate Granted(before: World, claim: Claim, p: Pending) {
    && (forall i :: 0 <= i < |before.granted| ==> before.granted[i].token != claim.token)
    && Owns(p, claim)
    && (forall i :: 0 <= i < |before.granted| && Owns(before.p, before.granted[i]) ==>
          before.granted[i].taskId != claim.taskId)
  }

  /** A settlement succeeds for the owner only, never twice, and otherwise changes nothing. */
  ghost predicate SettledAs(before: World, claim: Claim, how: Settlement, after: World, ok: bool) {
    && after == Next(before, SettleOp(claim, how)) && (after.p, ok) == Settle(before.p, claim, how)
    && (ok <==> Owns(before.p, claim))
    && (ok ==> claim.token !in before.settled && !Owns(after.p, claim))
    && (ok ==> after.settled == before.settled + [claim.token])
    && (!ok ==> after == before)
  }

  lemma SettleKeeps(w: World, claim: Claim, how: Settlement)
    requires Exclusive(w)
    ensures Exclusive(Next(w, SettleOp(claim, how)))
    ensures Settle(w.p, claim, how).1 <==> Owns(w.p, claim)
    ensures Settle(w.p, claim, how).1 ==> claim.token !in w.settled && !Owns(Settle(w.p, claim, how).0, claim)
  {
    NextExclusive(w, SettleOp(claim, how));
    if Owns(w.p, claim) {
      NamesItsGrant(w, claim);
    }
  }
}
