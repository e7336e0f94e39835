/** Nobody waits for ever on a lock: whoever is blocked is blocked by a thread that can
    move, or by one that is itself blocked by a thread that can move. */
module ProtocolProgress {
  import opened Common
  import opened ProtocolState
  import opened ProtocolSteps
  import opened ProtocolInvariant
  import opened ProtocolPreservation

  // ---- the choices of a step exist ----

  lemma FreshName(used: set<nat>) returns (n: nat)
    ensures n !in used
    ensures forall x | x in used :: x < n
  {
    if used == {} {
      n := 0;
    } else {
      var x :| x in used;
      var m := FreshName(used - {x});
      n := if x < m then m else x + 1;
      forall y | y in used
        ensures y < n
      {
        assert y == x || y in used - {x};
      }
    }
  }

  lemma ListOf(table: set<Id>) returns (ids: seq<Id>)
    ensures Enumerates(ids, table)
  {
    if table == {} {
      ids := [];
    } else {
      var x :| x in table;
      var rest := ListOf(table - {x});
      ids := [x] + rest;
    }
  }

  lemma RolesKnown(s: State, t: Tid)
    requires Inv(s) && t in s.pc
    ensures KnownIds(s.txs.Keys, RoleOf(s.pc[t]))
  {
    hide RoleOf;
    assert RolesOf(s)[t] == RoleOf(s.pc[t]);
  }

  lemma ReferencesExist(s: State, t: Tid)
    requires Inv(s) && t in s.pc
    ensures Known(s, s.pc[t])
  {
    hide InvOver, RoleOf, Holds, Owes, Refers;
    RoleFields(s.pc[t]);
    RolesKnown(s, t);
    forall id | id in Owes(s.pc[t])
      ensures id in s.txs
    {
      OwedIsDetached(s, t, id);
    }
  }

  lemma RoleFields(p: Pc)
    ensures RoleOf(p).holds == Holds(p) && RoleOf(p).owes == Owes(p) && RoleOf(p).refers == Refers(p)
  {}

  ghost predicate CanMove(s: State, t: Tid) {
    exists ch :: Enabled(s, t, ch)
  }

  /** The only thing that can stop a thread is a lock. */
  lemma OnlyLocksBlock(s: State, t: Tid)
    requires Inv(s) && t in s.pc && LockFree(s, t)
    ensures CanMove(s, t)
  {
    hide InvOver;
    ReferencesExist(s, t);
    var id := FreshName(s.txs.Keys);
    var c := FreshName(s.place.Keys);
    var ids := ListOf(s.table);
    assert Enabled(s, t, Choice(CloseTake, true, true, true, id, c, ids, []));
  }

  // ---- waiting ----

  /** The lock that the next statement of `t` needs is in the hands of `u`. */
  predicate WaitsOn(s: State, t: Tid, u: Tid)
    requires t in s.pc
  {
    && u != t
    && var p := s.pc[t];
       || (WantsTable(p) && s.tableLock == Some(u))
       || (WantsPool(p) && s.poolLock == Some(u))
       || (WaitsFor(p).Some? && WaitsFor(p).value in s.txLock && s.txLock[WaitsFor(p).value] == u)
  }

  lemma Waiting(p: Pc)
    ensures WaitsFor(p).Some? ==> Holds(p) == None && !WantsTable(p) && !WantsPool(p) && !InsidePool(p)
    ensures WantsTable(p) ==> !WantsPool(p) && !InsidePool(p)
    ensures InsidePool(p) ==> !WantsPool(p)
  {}

  /** The table lock and the pool lock are innermost: their owner needs no other lock. */
  lemma ShortLockOwnerMoves(s: State, u: Tid)
    requires Inv(s) && (s.tableLock == Some(u) || s.poolLock == Some(u))
    ensures u in s.pc && CanMove(s, u)
  {
    ShortLockOwner(s, u);
    Waiting(s.pc[u]);
    hide InvOver;
    OnlyLocksBlock(s, u);
  }

  lemma ShortLockOwner(s: State, u: Tid)
    requires Inv(s) && (s.tableLock == Some(u) || s.poolLock == Some(u))
    ensures u in s.pc
    ensures s.tableLock == Some(u) ==> WantsTable(s.pc[u])
    ensures s.poolLock == Some(u) ==> WantsPool(s.pc[u]) || InsidePool(s.pc[u])
  {
    assert u in RolesOf(s);
    assert RolesOf(s)[u].section == SectionOf(s.pc[u]);
  }

  /** The owner of a transaction lock never blocks on a transaction lock. */
  lemma TxLockOwner(s: State, id: Id)
    requires Inv(s) && id in s.txLock
    ensures s.txLock[id] in s.pc && Holds(s.pc[s.txLock[id]]) == Some(id)
    ensures WaitsFor(s.pc[s.txLock[id]]) == None
  {
    var u := s.txLock[id];
    assert u in RolesOf(s);
    assert RolesOf(s)[u].holds == Holds(s.pc[u]);
    Waiting(s.pc[u]);
  }

  /** The thread that `t` waits on does not itself wait for a transaction lock, and it can
      move at once if `t` waits for the table lock or the pool lock. */
  lemma Blocker(s: State, t: Tid) returns (u: Tid)
    requires Inv(s) && t in s.pc && !LockFree(s, t)
    ensures u in s.pc && WaitsOn(s, t, u) && WaitsFor(s.pc[u]) == None
    ensures WaitsFor(s.pc[t]) == None ==> CanMove(s, u)
  {
    var p := s.pc[t];
    Waiting(p);
    if WaitsFor(p).Some? {
      var id := WaitsFor(p).value;
      u := s.txLock[id];
      TxLockOwner(s, id);
    } else {
      u := if WantsTable(p) then s.tableLock.value else s.poolLock.value;
      ShortLockOwner(s, u);
      Waiting(s.pc[u]);
      ShortLockOwnerMoves(s, u);
    }
  }

  /** In every reachable state, every thread can move, or waits on one that can, or waits on
      one that waits on one that can: a chain of waits is never longer than two and never
      closes on itself. */
  lemma NoDeadlock(s: State, t: Tid)
    requires Inv(s) && t in s.pc
    ensures CanMove(s, t) ||
            exists u :: u in s.pc && WaitsOn(s, t, u) &&
                        (CanMove(s, u) || exists v :: v in s.pc && WaitsOn(s, u, v) && CanMove(s, v))
  {
    if LockFree(s, t) {
      OnlyLocksBlock(s, t);
    } else {
      var u := Blocker(s, t);
      if LockFree(s, u) {
        OnlyLocksBlock(s, u);
      } else {
        var v := Blocker(s, u);
      }
    }
  }

  /** The semaphore, whose wait can time out, is waited for without any lock. */
  lemma SemaphoreWaitHoldsNothing(s: State, t: Tid)
    requires Inv(s) && t in s.pc && s.pc[t].CkWait?
    ensures s.tableLock != Some(t) && s.poolLock != Some(t)
    ensures forall id | id in s.txLock :: s.txLock[id] != t
    ensures CanMove(s, t)
  {
    OnlyLocksBlock(s, t);
    RestingRole(s.pc[t]);
    hide RoleOf;
    ShortLocks(s, t);
    assert RolesOf(s)[t].holds == None;
  }
}
