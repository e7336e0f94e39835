/** Every step of every thread keeps the invariant: each statement is one of the elementary
    effects, or an effect and the end of a short critical section. */
module ProtocolPreservation {
  import opened Common
  import opened ProtocolState
  import opened ProtocolSteps
  import opened ProtocolInvariant
  import opened ProtocolEffects
  import opened ProtocolConnections
  import opened ProtocolTransactions

  // ---- from roles back to program counters ----

  /** The invariant does not look at these parts of the state. */
  lemma Unseen(s: State, r: Roles, pc: map<Tid, Pc>, durable: seq<seq<Write>>, now: int)
    requires InvOver(s, r)
    ensures InvOver(s.(pc := pc, durable := durable, now := now), r)
  {}

  /** Only `t` moved, so only its role changed. */
  lemma Became(s: State, s1: State, s': State, t: Tid, p: Pc)
    requires t in s.pc && s' == s1.(pc := s.pc[t := p], durable := s'.durable, now := s'.now)
    requires InvOver(s1, RolesOf(s)[t := RoleOf(p)])
    ensures Inv(s')
  {
    hide InvOver, RoleOf;
    assert RolesOf(s') == RolesOf(s)[t := RoleOf(p)];
    Unseen(s1, RolesOf(s'), s'.pc, s'.durable, s'.now);
  }

  /** `t` holds neither the table lock nor the pool lock any more. */
  function Unlocked(s: State, t: Tid): State {
    s.(tableLock := if s.tableLock == Some(t) then None else s.tableLock,
       poolLock := if s.poolLock == Some(t) then None else s.poolLock)
  }

  lemma ShortLocks(s: State, t: Tid)
    requires Inv(s) && t in s.pc
    ensures RolesOf(s)[t] == RoleOf(s.pc[t])
    ensures s.tableLock == Some(t) ==> RoleOf(s.pc[t]).section == InTable
    ensures s.poolLock == Some(t) ==> RoleOf(s.pc[t]).section in {AtPool, InPool}
    ensures RoleOf(s.pc[t]).section == InPool ==> s.poolLock == Some(t)
    ensures RoleOf(s.pc[t]).section == Outside ==> Unlocked(s, t) == s
  {
    hide RoleOf;
  }

  /** The end of a short critical section: only the section and the references change. */
  lemma Leave(s: State, r: Roles, t: Tid, m: Role, n: Role)
    requires InvOver(s, r[t := m]) && m.(section := n.section, refers := n.refers) == n
    requires KnownIds(s.txs.Keys, n) && n.section != InPool
    ensures InvOver(Unlocked(s, t), r[t := n])
  {
    var r' := r[t := m];
    assert r'[t := n] == r[t := n];
    assert WellFormed(r'[t]) && JobOk(s.txs, s.staged, t, r'[t].job);
    hide InvOver;
    var s' := Unlocked(s, t);
    Walk(s, r', t, n, s'.tableLock, s'.poolLock);
  }

  // ---- the roles ----

  /** Program counters of a thread that possesses nothing. */
  predicate Resting(p: Pc) {
    p.Idle? || p.SweepTake? || p.SweepHead? || p.SweepTry? || p.Prepare? || p.CkWait? || p.TxLookup? ||
    p.WriteWait? || p.FinLookup? || p.FinWait? || p.CloseTake? || p.DrainTake? || p == CloseNext([]) ||
      p == DrainClose([])
  }

  lemma RestingRole(p: Pc)
    requires Resting(p)
    ensures RoleOf(p) == Role(if WantsTable(p) then InTable else if WantsPool(p) then AtPool else Outside,
                              None, [], false, [], Refers(p), false, false, Nothing)
  {}

  /** Mid-checkout: a permit, perhaps a slot, perhaps a candidate. */
  lemma CheckoutRoles(want: Want, c: Conn)
    ensures RoleOf(CkScan(want)) == Role(AtPool, None, [], false, [], [], true, false, Nothing)
    ensures RoleOf(CkPing(want, c)) == Role(InPool, None, [c], false, [], [], true, true, Nothing)
    ensures RoleOf(CkDead(want, c)) == Role(InPool, None, [c], false, [], [], true, true, Nothing)
    ensures RoleOf(CkOpen(want)) == Role(Outside, None, [], false, [], [], true, true, Nothing)
    ensures RoleOf(CkFail) == Role(Outside, None, [], false, [], [], true, false, Nothing)
  {}

  /** One call on a borrowed connection, and its release. */
  lemma LoanRoles(loan: Loan, ok: bool, c: Conn)
    ensures RoleOf(ReadCall(loan, c)) == Role(Outside, None, [c], false, [], [], true, true, Nothing)
    ensures RoleOf(Push(c, OfLoan(loan, ok))) == Role(AtPool, None, [c], false, [], [], true, true, Pushing(c))
    ensures RoleOf(Drop(c, OfLoan(loan, ok))) == Role(Outside, None, [c], true, [], [], true, true, Nothing)
    ensures RoleOf(Post(OfLoan(loan, ok))) == Role(Outside, None, [], false, [], [], true, false, Nothing)
  {}

  function AfterRefers(after: After): seq<Id> {
    if after.AfterSweep? then after.rest else []
  }

  /** The end of a transaction: its connection, then its permit, then its lock. */
  lemma EndingRoles(c: Conn, id: Id, after: After)
    ensures RoleOf(Push(c, OfTx(id, after))) ==
      Role(AtPool, Some(id), [], false, [id] + Rest(after), AfterRefers(after), false, false, PushingTx(id, c))
    ensures RoleOf(Drop(c, OfTx(id, after))) ==
      Role(Outside, Some(id), [], true, [id] + Rest(after), AfterRefers(after), false, false, DroppingTx(id, c))
    ensures RoleOf(Post(OfTx(id, after))) ==
      Role(Outside, Some(id), [], false, Rest(after), AfterRefers(after), true, false, Nothing)
  {}

  lemma UnlockRoles(id: Id, after: After)
    ensures RoleOf(TxUnlock(id, after)) ==
      Role(Outside, Some(id), [], false, Rest(after), AfterRefers(after), false, false, Nothing)
    ensures RoleOf(Resume(after)) ==
      Role(Outside, None, [], false, Rest(after), AfterRefers(after), false, false, Nothing)
  {}

  /** A write, under its transaction's lock. */
  lemma WriteRoles(id: Id, data: nat)
    ensures RoleOf(TxInsert(id, data)) == Role(InTable, None, [], false, [], [id], false, false, Inserting(id))
    ensures RoleOf(WriteCheck(id, data)) == Role(InTable, Some(id), [], false, [], [], false, false, Nothing)
    ensures RoleOf(WriteCall(id, data)) == Role(Outside, Some(id), [], false, [], [], false, false, Writing(id))
    ensures RoleOf(WriteAck(id)) == Role(Outside, Some(id), [], false, [], [], false, false, Writing(id))
    ensures RoleOf(Discard(id)) == Role(InTable, Some(id), [], false, [], [], false, false, Discarding(id))
  {}

  /** Commit, rollback and expiry, under the transaction's lock. */
  lemma FinishRoles(id: Id, commit: bool, goal: Goal, cutoff: int, rest: seq<Id>)
    ensures RoleOf(FinRemove(id, commit)) == Role(InTable, Some(id), [], false, [], [], false, false, Nothing)
    ensures RoleOf(FinCall(id, commit)) ==
      Role(Outside, Some(id), [], false, [id], [], false, false, Finishing(id, if commit then ByCommit else ByRollback))
    ensures RoleOf(SweepLocked(goal, cutoff, id, rest)) ==
      Role(InTable, Some(id), [], false, [], rest, false, false, Nothing)
    ensures RoleOf(SweepCall(goal, cutoff, id, rest)) ==
      Role(Outside, Some(id), [], false, [id], rest, false, false, Nothing)
  {}

  lemma ShutdownRoles(id: Id, todo: seq<Id>, conns: seq<Conn>)
    ensures RoleOf(CloseNext(todo)) == Role(Outside, None, [], false, todo, [], false, false, Nothing)
    ensures RoleOf(CloseCall(id, todo)) == Role(Outside, Some(id), [], false, [id] + todo, [], false, false, Nothing)
    ensures RoleOf(DrainClose(conns)) == Role(Outside, None, conns, false, [], [], false, false, Nothing)
  {}

  /** A step that is no more than going on to `p`, possibly out of a critical section. */
  lemma KeepWalk(s: State, t: Tid, p: Pc)
    requires Inv(s) && t in s.pc
    requires var m, n := RoleOf(s.pc[t]), RoleOf(p);
             && n.section != InPool && n.holds == m.holds && SameGoods(m, n) && SameDuty(m, n) && NoAmnesty(s.txs, m, n)
             && KnownIds(s.txs.Keys, n) && WellFormed(n) && JobOk(s.txs, s.staged, t, n.job)
    ensures Inv(Goto(Unlocked(s, t), t, p))
  {
    hide InvOver, RoleOf;
    var s1 := Unlocked(s, t);
    Walk(s, RolesOf(s), t, RoleOf(p), s1.tableLock, s1.poolLock);
    Became(s, s1, Goto(s1, t, p), t, p);
  }

  lemma KeepResting(s: State, t: Tid, p: Pc)
    requires Inv(s) && t in s.pc && Resting(s.pc[t]) && Resting(p)
    requires forall id | id in Refers(p) :: id in s.txs
    ensures Inv(Goto(Unlocked(s, t), t, p))
  {
    hide InvOver, RoleOf;
    RestingRole(s.pc[t]);
    RestingRole(p);
    var s1 := Unlocked(s, t);
    Walk(s, RolesOf(s), t, RoleOf(p), s1.tableLock, s1.poolLock);
    Became(s, s1, Goto(s1, t, p), t, p);
  }

  lemma KeepTxLock(s: State, t: Tid, p: Pc, id: Id)
    requires Inv(s) && t in s.pc && Resting(s.pc[t]) && RoleOf(s.pc[t]).section == Outside
    requires id in s.txs && id !in s.txLock && RoleOf(p).section != InPool
    requires RoleOf(p) == Role(RoleOf(p).section, Some(id), [], false, [], RoleOf(p).refers, false, false, Nothing)
    requires forall i | i in RoleOf(p).refers :: i in s.txs
    ensures Inv(LockTx(s, t, id, p))
  {
    RestingRole(s.pc[t]);
    ShortLocks(s, t);
    hide InvOver, RoleOf;
    TakeTxLock(s, RolesOf(s), t, RoleOf(p), id);
    Became(s, s.(txLock := s.txLock[id := t]), LockTx(s, t, id, p), t, p);
  }

  // ---- the condition of what a thread possesses ----

  /** `place` and the staged work of a connection that a thread holds itself. */
  lemma OwnConn(s: State, t: Tid, c: Conn)
    requires Inv(s) && t in s.pc && c in RoleOf(s.pc[t]).borrowed
    ensures c in s.place && s.place[c] == AtThread(t)
    ensures !RoleOf(s.pc[t]).dirty ==> StagedOn(s.staged, c) == []
  {
    hide RoleOf;
    assert c in RolesOf(s)[t].borrowed;
  }

  lemma OwnJob(s: State, t: Tid)
    requires Inv(s) && t in s.pc
    ensures JobOk(s.txs, s.staged, t, RoleOf(s.pc[t]).job)
  {
    hide RoleOf;
    assert RolesOf(s)[t].job == RoleOf(s.pc[t]).job;
  }

  lemma OwedIsDetached(s: State, t: Tid, id: Id)
    requires Inv(s) && t in s.pc && id in RoleOf(s.pc[t]).owes
    ensures id in s.txs && s.txs[id].stage.Detached? && s.txs[id].stage.remover == t
  {
    hide RoleOf;
    assert id in RolesOf(s)[t].owes;
  }

  /** What the lock owner of an open transaction finds on its connection. */
  lemma Matches(s: State, t: Tid, id: Id)
    requires Inv(s) && t in s.pc && RoleOf(s.pc[t]).holds == Some(id) && !RoleOf(s.pc[t]).job.Discarding?
    requires id in s.txs && Open(s.txs[id])
    ensures StagedOn(s.staged, s.txs[id].conn) == s.txs[id].executed
  {
    hide RoleOf;
    var r := RolesOf(s);
    assert r[t].holds == Some(id);
    assert !Spoiled(s.txLock, r, id);
  }

  /** In the table means live, and only then. */
  lemma TableIsLive(s: State)
    requires Inv(s)
    ensures forall id | id in s.table :: id in s.txs
    ensures forall id | id in s.txs :: id in s.table <==> s.txs[id].stage.Live?
  {}

  lemma PermitsNatural(s: State)
    requires Inv(s)
    ensures s.permits >= 0
  {}

  // ---- requests ----

  lemma KeepIdle(s: State, t: Tid, ch: Choice)
    requires Inv(s) && Enabled(s, t, ch) && s.pc[t].Idle?
    ensures Inv(CallStep(s, t, ch).0)
  {
    hide InvOver, RoleOf;
    ShortLocks(s, t);
    RestingRole(Idle);
    KeepResting(s, t, ch.start);
  }

  lemma PreparedRests(goal: Goal)
    ensures Resting(AfterPrepare(goal)) && Refers(AfterPrepare(goal)) == []
  {}

  lemma KeepPrepared(s: State, t: Tid, p: Pc)
    requires Inv(s) && t in s.pc && s.pc[t].Prepare? && (p == Idle || p == AfterPrepare(s.pc[t].goal))
    ensures Inv(Goto(s, t, p))
  {
    hide InvOver, RoleOf, AfterPrepare;
    PreparedRests(s.pc[t].goal);
    RestingRole(s.pc[t]);
    ShortLocks(s, t);
    KeepResting(s, t, p);
  }

  lemma KeepPrepare(s: State, t: Tid, ch: Choice)
    requires Inv(s) && Enabled(s, t, ch) && s.pc[t].Prepare?
    ensures Inv(CallStep(s, t, ch).0)
  {
    hide InvOver, RoleOf;
    ShortLocks(s, t);
    RestingRole(s.pc[t]);
    if ch.ok {
      KeepPrepared(s, t, AfterPrepare(s.pc[t].goal));
    } else {
      KeepPrepared(s, t, Idle);
    }
  }

  lemma KeepReadCall(s: State, t: Tid, ch: Choice)
    requires Inv(s) && Enabled(s, t, ch) && s.pc[t].ReadCall?
    ensures Inv(CallStep(s, t, ch).0)
  {
    hide InvOver, RoleOf;
    var ReadCall(loan, c) := s.pc[t];
    LoanRoles(loan, ch.ok, c);
    ShortLocks(s, t);
    OwnConn(s, t, c);
    if ch.ok {
      KeepWalk(s, t, Push(c, OfLoan(loan, true)));
    } else {
      var p := Drop(c, OfLoan(loan, false));
      DirtyLoan(s, RolesOf(s), t, RoleOf(p), c, ch.left);
      Became(s, SetStaged(s, c, ch.left), CallStep(s, t, ch).0, t, p);
    }
  }

  // ---- the table lock: lookups ----

  lemma KeepLookup(s: State, t: Tid, ch: Choice)
    requires Inv(s) && Enabled(s, t, ch) && s.tableLock == Some(t)
    requires s.pc[t].SweepTake? || s.pc[t].TxLookup? || s.pc[t].FinLookup?
    ensures Inv(LookStep(s, t, ch).0)
  {
    hide InvOver, RoleOf;
    ShortLocks(s, t);
    RestingRole(s.pc[t]);
    TableIsLive(s);
    var p := LookStep(s, t, ch).0.pc[t];
    assert LookStep(s, t, ch).0 == Goto(Unlocked(s, t), t, p);
    KeepResting(s, t, p);
  }

  lemma KeepTxInsert(s: State, t: Tid, ch: Choice)
    requires Inv(s) && Enabled(s, t, ch) && s.pc[t].TxInsert? && s.tableLock == Some(t)
    ensures Inv(LookStep(s, t, ch).0)
  {
    hide InvOver, RoleOf;
    var TxInsert(id, data) := s.pc[t];
    var p := WriteWait(id, data);
    WriteRoles(id, data);
    RestingRole(p);
    ShortLocks(s, t);
    var n := RoleOf(p);
    var m := n.(section := InTable);
    var s1 := SetStage(s.(table := s.table + {id}), id, Live);
    InsertTx(s, RolesOf(s), t, m, id);
    Leave(s1, RolesOf(s), t, m, n);
    Became(s, Unlocked(s1, t), LookStep(s, t, ch).0, t, p);
  }

  lemma KeepWriteCheck(s: State, t: Tid, ch: Choice)
    requires Inv(s) && Enabled(s, t, ch) && s.pc[t].WriteCheck? && s.tableLock == Some(t)
    ensures Inv(LookStep(s, t, ch).0)
  {
    hide InvOver, RoleOf;
    var WriteCheck(id, data) := s.pc[t];
    WriteRoles(id, data);
    UnlockRoles(id, AfterCall);
    ShortLocks(s, t);
    TableIsLive(s);
    if id in s.table {
      KeepWalk(s, t, WriteCall(id, data));
    } else {
      KeepWalk(s, t, TxUnlock(id, AfterCall));
    }
  }

  // ---- the table lock: removals ----

  /** Taking `id` out of the table and going on to `p`, which is to end it. */
  lemma KeepRemove(s: State, t: Tid, id: Id, why: Reason, p: Pc)
    requires Inv(s) && t in s.pc && s.tableLock == Some(t) && id in s.table && id in s.txs
    requires var m, n := RoleOf(s.pc[t]), RoleOf(p);
             && m == Role(InTable, Some(id), [], false, [], m.refers, false, false, m.job)
             && n == Role(Outside, Some(id), [], n.dirty, [id], n.refers, false, false, n.job)
             && (m.job == Nothing || m.job == Discarding(id))
             && WellFormed(n) && !n.job.Inserting? && !n.job.Discarding?
             && JobOk(SetStage(s, id, Detached(t, why)).txs, s.staged, t, n.job)
             && forall i | i in n.refers :: i in s.txs
    ensures Inv(Goto(Remove(s, t, id, why), t, p))
  {
    hide InvOver, RoleOf;
    ShortLocks(s, t);
    var n := RoleOf(p);
    var m := n.(section := InTable);
    var s1 := SetStage(s.(table := s.table - {id}), id, Detached(t, why));
    Detach(s, RolesOf(s), t, m, id, why);
    Leave(s1, RolesOf(s), t, m, n);
    Became(s, Unlocked(s1, t), Goto(Remove(s, t, id, why), t, p), t, p);
  }

  lemma KeepSweepLocked(s: State, t: Tid, ch: Choice)
    requires Inv(s) && Enabled(s, t, ch) && s.pc[t].SweepLocked? && s.tableLock == Some(t)
    ensures Inv(RemoveStep(s, t, ch).0)
  {
    hide InvOver, RoleOf;
    var SweepLocked(goal, cutoff, id, rest) := s.pc[t];
    FinishRoles(id, true, goal, cutoff, rest);
    UnlockRoles(id, AfterSweep(goal, cutoff, rest));
    ShortLocks(s, t);
    if id in s.table && s.txs[id].lastUsed < cutoff {
      KeepRemove(s, t, id, ByExpiry, SweepCall(goal, cutoff, id, rest));
    } else {
      KeepWalk(s, t, TxUnlock(id, AfterSweep(goal, cutoff, rest)));
    }
  }

  lemma KeepDiscard(s: State, t: Tid, ch: Choice)
    requires Inv(s) && Enabled(s, t, ch) && s.pc[t].Discard? && s.tableLock == Some(t)
    ensures Inv(RemoveStep(s, t, ch).0)
  {
    hide InvOver, RoleOf;
    var id := s.pc[t].id;
    WriteRoles(id, 0);
    EndingRoles(s.txs[id].conn, id, AfterCall);
    UnlockRoles(id, AfterCall);
    ShortLocks(s, t);
    OwnJob(s, t);
    TableIsLive(s);
    if id in s.table {
      KeepRemove(s, t, id, ByDiscard, Drop(s.txs[id].conn, OfTx(id, AfterCall)));
    } else {
      KeepWalk(s, t, TxUnlock(id, AfterCall));
    }
  }

  lemma KeepFinRemove(s: State, t: Tid, ch: Choice)
    requires Inv(s) && Enabled(s, t, ch) && s.pc[t].FinRemove? && s.tableLock == Some(t)
    ensures Inv(RemoveStep(s, t, ch).0)
  {
    hide InvOver, RoleOf;
    var FinRemove(id, commit) := s.pc[t];
    FinishRoles(id, commit, GRead(0), 0, []);
    UnlockRoles(id, AfterCall);
    ShortLocks(s, t);
    TableIsLive(s);
    if id in s.table {
      Matches(s, t, id);
      KeepRemove(s, t, id, if commit then ByCommit else ByRollback, FinCall(id, commit));
    } else {
      KeepWalk(s, t, TxUnlock(id, AfterCall));
    }
  }

  lemma KeepCloseTake(s: State, t: Tid, ch: Choice)
    requires Inv(s) && Enabled(s, t, ch) && s.pc[t].CloseTake? && s.tableLock == Some(t)
    ensures Inv(RemoveStep(s, t, ch).0)
  {
    hide InvOver, RoleOf;
    var p := CloseNext(ch.ids);
    RestingRole(CloseTake);
    ShutdownRoles(0, ch.ids, []);
    ShortLocks(s, t);
    var n := RoleOf(p);
    var m := n.(section := InTable);
    var s1 := s.(table := {}, txs := Shut(s.table, s.txs, t));
    DetachAll(s, RolesOf(s), t, m);
    Leave(s1, RolesOf(s), t, m, n);
    Became(s, Unlocked(s1, t), RemoveStep(s, t, ch).0, t, p);
  }

  // ---- checkout ----

  lemma KeepCkWait(s: State, t: Tid, ch: Choice)
    requires Inv(s) && Enabled(s, t, ch) && s.pc[t].CkWait?
    ensures Inv(CheckoutStep(s, t, ch).0)
  {
    hide InvOver, RoleOf;
    RestingRole(s.pc[t]);
    ShortLocks(s, t);
    var p := CkScan(s.pc[t].want);
    if s.permits > 0 {
      CheckoutRoles(s.pc[t].want, 0);
      MovePermit(s, RolesOf(s), t, RoleOf(p), s.permits - 1);
      Became(s, s.(permits := s.permits - 1), CheckoutStep(s, t, ch).0, t, p);
    } else {
      KeepResting(s, t, Idle);
    }
  }

  lemma KeepCkScan(s: State, t: Tid, ch: Choice)
    requires Inv(s) && Enabled(s, t, ch) && s.pc[t].CkScan? && s.poolLock == Some(t)
    ensures Inv(PoolStep(s, t).0)
  {
    hide InvOver, RoleOf;
    ShortLocks(s, t);
    var want := s.pc[t].want;
    var r := RolesOf(s);
    if s.idle == [] {
      CheckoutRoles(want, 0);
      var n := RoleOf(CkOpen(want));
      var m := n.(section := AtPool);
      MoveSlot(s, r, t, m);
      Leave(s, r, t, m, n);
      Became(s, Unlocked(s, t), Scan(s, t, want), t, CkOpen(want));
    } else {
      var c := s.idle[|s.idle| - 1];
      CheckoutRoles(want, c);
      var p := CkPing(want, c);
      PopIdle(s, r, t, RoleOf(p));
      Became(s, s.(idle := s.idle[..|s.idle| - 1], place := s.place[c := AtThread(t)]), Scan(s, t, want), t, p);
    }
  }

  lemma KeepCkPing(s: State, t: Tid, ch: Choice)
    requires Inv(s) && Enabled(s, t, ch) && s.pc[t].CkPing?
    ensures Inv(CheckoutStep(s, t, ch).0)
  {
    hide InvOver, RoleOf;
    var CkPing(want, c) := s.pc[t];
    CheckoutRoles(want, c);
    ShortLocks(s, t);
    var r := RolesOf(s);
    OwnConn(s, t, c);
    if !ch.ok {
      Walk(s, r, t, RoleOf(CkDead(want, c)), s.tableLock, s.poolLock);
      Became(s, s, Goto(s, t, CkDead(want, c)), t, CkDead(want, c));
    } else {
      match want
      case ForCall(loan) =>
        LoanRoles(loan, true, c);
        assert s.place[c := AtThread(t)] == s.place;
        KeepWalk(s, t, ReadCall(loan, c));
      case ForWrite(data) =>
        KeepWrap(s, t, c, data, ch);
    }
  }

  lemma KeepWrap(s: State, t: Tid, c: Conn, data: nat, ch: Choice)
    requires Inv(s) && Enabled(s, t, ch) && s.pc[t] == CkPing(ForWrite(data), c)
    ensures Inv(Got(UnlockPool(s), t, ForWrite(data), c, ch))
  {
    hide InvOver, RoleOf;
    var r := RolesOf(s);
    var id := ch.freshId;
    var p := TxInsert(id, data);
    CheckoutRoles(ForWrite(data), c);
    WriteRoles(id, data);
    ShortLocks(s, t);
    var n := RoleOf(p);
    var m := n.(section := InPool);
    var s1 := s.(place := s.place[c := AtTx(id)], txs := s.txs[id := Tx(c, s.now, Fresh(t), [])]);
    WrapTx(s, r, t, m, c, id);
    Leave(s1, r, t, m, n);
    Became(s, Unlocked(s1, t), Got(UnlockPool(s), t, ForWrite(data), c, ch), t, p);
  }

  lemma KeepCkDead(s: State, t: Tid, ch: Choice)
    requires Inv(s) && Enabled(s, t, ch) && s.pc[t].CkDead?
    ensures Inv(CheckoutStep(s, t, ch).0)
  {
    hide InvOver, RoleOf;
    var CkDead(want, c) := s.pc[t];
    CheckoutRoles(want, c);
    ShortLocks(s, t);
    var p := CkScan(want);
    CloseBorrowed(s, RolesOf(s), t, RoleOf(p), c);
    Became(s, CloseConn(s, c), Goto(CloseConn(s, c), t, p), t, p);
  }

  lemma KeepCkOpen(s: State, t: Tid, ch: Choice)
    requires Inv(s) && Enabled(s, t, ch) && s.pc[t].CkOpen?
    ensures Inv(CheckoutStep(s, t, ch).0)
  {
    hide InvOver, RoleOf;
    var want := s.pc[t].want;
    var r := RolesOf(s);
    var c := ch.freshConn;
    CheckoutRoles(want, c);
    ShortLocks(s, t);
    if !ch.ok {
      MoveSlot(s, r, t, RoleOf(CkFail));
      Became(s, s, Goto(s, t, CkFail), t, CkFail);
    } else {
      match want
      case ForCall(loan) =>
        LoanRoles(loan, true, c);
        OpenConn(s, r, t, RoleOf(ReadCall(loan, c)), c);
        var s1 := s.(place := s.place[c := AtThread(t)], staged := s.staged[c := []]);
        Became(s, s1, Goto(s1, t, ReadCall(loan, c)), t, ReadCall(loan, c));
      case ForWrite(data) =>
        KeepOpenTx(s, t, c, data, ch);
    }
  }

  lemma KeepOpenTx(s: State, t: Tid, c: Conn, data: nat, ch: Choice)
    requires Inv(s) && Enabled(s, t, ch) && s.pc[t] == CkOpen(ForWrite(data)) && c == ch.freshConn
    ensures Inv(Got(SetStaged(s, c, []), t, ForWrite(data), c, ch))
  {
    hide InvOver, RoleOf;
    var r := RolesOf(s);
    var id := ch.freshId;
    var p := TxInsert(id, data);
    CheckoutRoles(ForWrite(data), c);
    LoanRoles(Final, true, c);
    WriteRoles(id, data);
    ShortLocks(s, t);
    var m := RoleOf(ReadCall(Final, c));
    var s1 := s.(place := s.place[c := AtThread(t)], staged := s.staged[c := []]);
    OpenConn(s, r, t, m, c);
    var r1: Roles := r[t := m];
    WrapTx(s1, r1, t, RoleOf(p), c, id);
    assert r1[t := RoleOf(p)] == r[t := RoleOf(p)];
    assert s1.place[c := AtTx(id)] == s.place[c := AtTx(id)];
    Became(s, s1.(place := s1.place[c := AtTx(id)], txs := s1.txs[id := Tx(c, s1.now, Fresh(t), [])]),
           Got(SetStaged(s, c, []), t, ForWrite(data), c, ch), t, p);
  }

  lemma KeepCkFail(s: State, t: Tid, ch: Choice)
    requires Inv(s) && Enabled(s, t, ch) && s.pc[t].CkFail?
    ensures Inv(CheckoutStep(s, t, ch).0)
  {
    hide InvOver, RoleOf;
    PermitsNatural(s);
    CheckoutRoles(ForCall(Final), 0);
    RestingRole(Idle);
    ShortLocks(s, t);
    MovePermit(s, RolesOf(s), t, RoleOf(Idle), s.permits + 1);
    Became(s, s.(permits := s.permits + 1), CheckoutStep(s, t, ch).0, t, Idle);
  }

  // ---- transaction locks and the calls under them ----

  lemma KeepTxWaits(s: State, t: Tid, ch: Choice)
    requires Inv(s) && Enabled(s, t, ch) && (s.pc[t].WriteWait? || s.pc[t].FinWait?)
    ensures Inv(WorkStep(s, t, ch).0)
  {
    hide InvOver, RoleOf;
    RestingRole(s.pc[t]);
    match s.pc[t]
    case WriteWait(id, data) =>
      WriteRoles(id, data);
      KeepTxLock(s, t, WriteCheck(id, data), id);
    case FinWait(id, commit) =>
      FinishRoles(id, commit, GRead(0), 0, []);
      KeepTxLock(s, t, FinRemove(id, commit), id);
  }

  lemma KeepWriteCall(s: State, t: Tid, ch: Choice)
    requires Inv(s) && Enabled(s, t, ch) && s.pc[t].WriteCall?
    ensures Inv(WorkStep(s, t, ch).0)
  {
    hide InvOver, RoleOf;
    var WriteCall(id, data) := s.pc[t];
    WriteRoles(id, data);
    ShortLocks(s, t);
    OwnJob(s, t);
    var x := s.txs[id];
    if Open(x) { Matches(s, t, id); }
    if ch.ok {
      var work := StagedOn(s.staged, x.conn) + [Write(id, data)];
      var executed := x.executed + [Write(id, data)];
      var p := if ch.fits then WriteAck(id) else Discard(id);
      TxWork(s, RolesOf(s), t, RoleOf(p), id, work, executed);
      Became(s, s.(txs := s.txs[id := x.(executed := executed)], staged := s.staged[x.conn := work]),
             WriteEnds(s, t, id, data, ch).0, t, p);
    } else {
      TxWork(s, RolesOf(s), t, RoleOf(Discard(id)), id, ch.left, x.executed);
      assert s.txs[id := x.(executed := x.executed)] == s.txs;
      Became(s, SetStaged(s, x.conn, ch.left), WriteEnds(s, t, id, data, ch).0, t, Discard(id));
    }
  }

  lemma KeepWriteAck(s: State, t: Tid, ch: Choice)
    requires Inv(s) && Enabled(s, t, ch) && s.pc[t].WriteAck?
    ensures Inv(WorkStep(s, t, ch).0)
  {
    hide InvOver, RoleOf;
    var id := s.pc[t].id;
    var p := TxUnlock(id, AfterCall);
    WriteRoles(id, 0);
    UnlockRoles(id, AfterCall);
    ShortLocks(s, t);
    var s1 := s.(txs := s.txs[id := s.txs[id].(lastUsed := s.now)]);
    Touch(s, RolesOf(s), id, s.now);
    Walk(s1, RolesOf(s), t, RoleOf(p), s1.tableLock, s1.poolLock);
    Became(s, s1, WorkStep(s, t, ch).0, t, p);
  }

  lemma KeepSweepHead(s: State, t: Tid, ch: Choice)
    requires Inv(s) && Enabled(s, t, ch) && s.pc[t].SweepHead?
    ensures Inv(SweepStep(s, t, ch).0)
  {
    hide InvOver, RoleOf;
    var SweepHead(goal, cutoff, todo) := s.pc[t];
    RestingRole(s.pc[t]);
    ShortLocks(s, t);
    if todo == [] {
      KeepResting(s, t, AfterSweepPc(goal));
    } else if s.txs[todo[0]].lastUsed >= cutoff {
      KeepResting(s, t, SweepHead(goal, cutoff, todo[1..]));
    } else {
      KeepResting(s, t, SweepTry(goal, cutoff, todo[0], todo[1..]));
    }
  }

  lemma KeepSweepTry(s: State, t: Tid, ch: Choice)
    requires Inv(s) && Enabled(s, t, ch) && s.pc[t].SweepTry?
    ensures Inv(SweepStep(s, t, ch).0)
  {
    hide InvOver, RoleOf;
    var SweepTry(goal, cutoff, id, rest) := s.pc[t];
    RestingRole(s.pc[t]);
    FinishRoles(id, true, goal, cutoff, rest);
    ShortLocks(s, t);
    if id in s.txLock {
      KeepResting(s, t, SweepHead(goal, cutoff, rest));
    } else {
      KeepTxLock(s, t, SweepLocked(goal, cutoff, id, rest), id);
    }
  }

  // ---- the calls that end a transaction ----

  /** A commit or rollback RFC ends: the connection is pushed back clean, or dropped. */
  lemma KeepCallEnds(s: State, t: Tid, id: Id, after: After, work: seq<Write>, p: Pc)
    requires Inv(s) && t in s.pc && id in s.txs
    requires var m := RoleOf(s.pc[t]);
             && m == Role(Outside, Some(id), [], false, [id] + Rest(after), m.refers, false, false, m.job)
             && (m.job == Nothing || m.job.Finishing?)
    requires (p == Push(s.txs[id].conn, OfTx(id, after)) && work == []) || p == Drop(s.txs[id].conn, OfTx(id, after))
    requires forall i | i in AfterRefers(after) :: i in s.txs
    ensures Inv(Goto(SetStaged(s, s.txs[id].conn, work), t, p))
  {
    hide InvOver, RoleOf;
    ShortLocks(s, t);
    OwedIsDetached(s, t, id);
    var x := s.txs[id];
    EndingRoles(x.conn, id, after);
    TxWork(s, RolesOf(s), t, RoleOf(p), id, work, x.executed);
    assert s.txs[id := x.(executed := x.executed)] == s.txs;
    Became(s, SetStaged(s, x.conn, work), Goto(SetStaged(s, x.conn, work), t, p), t, p);
  }

  lemma KeepRollback(s: State, t: Tid, id: Id, after: After, ch: Choice)
    requires Inv(s) && t in s.pc && id in s.txs
    requires var m := RoleOf(s.pc[t]);
             && m == Role(Outside, Some(id), [], false, [id] + Rest(after), m.refers, false, false, m.job)
             && (m.job == Nothing || m.job.Finishing?)
    requires forall i | i in AfterRefers(after) :: i in s.txs
    ensures Inv(RollbackEnds(s, t, id, after, ch).0)
  {
    hide InvOver, RoleOf;
    var c := s.txs[id].conn;
    if ch.ok {
      KeepCallEnds(s, t, id, after, [], Push(c, OfTx(id, after)));
    } else {
      KeepCallEnds(s, t, id, after, ch.left, Drop(c, OfTx(id, after)));
    }
  }

  lemma KeepSweepCall(s: State, t: Tid, ch: Choice)
    requires Inv(s) && Enabled(s, t, ch) && s.pc[t].SweepCall?
    ensures Inv(SweepStep(s, t, ch).0)
  {
    hide InvOver, RoleOf;
    var SweepCall(goal, cutoff, id, rest) := s.pc[t];
    FinishRoles(id, true, goal, cutoff, rest);
    KeepRollback(s, t, id, AfterSweep(goal, cutoff, rest), ch);
  }

  lemma KeepCloseCall(s: State, t: Tid, ch: Choice)
    requires Inv(s) && Enabled(s, t, ch) && s.pc[t].CloseCall?
    ensures Inv(ShutdownStep(s, t, ch).0)
  {
    hide InvOver, RoleOf;
    var CloseCall(id, rest) := s.pc[t];
    ShutdownRoles(id, rest, []);
    KeepRollback(s, t, id, AfterClose(rest), ch);
  }

  lemma KeepFinCall(s: State, t: Tid, ch: Choice)
    requires Inv(s) && Enabled(s, t, ch) && s.pc[t].FinCall?
    ensures Inv(WorkStep(s, t, ch).0)
  {
    hide InvOver, RoleOf;
    var FinCall(id, commit) := s.pc[t];
    FinishRoles(id, commit, GRead(0), 0, []);
    if commit {
      var work := if ch.ok then [] else ch.left;
      var c := s.txs[id].conn;
      var p := if ch.ok then Push(c, OfTx(id, AfterCall)) else Drop(c, OfTx(id, AfterCall));
      var s1 := Goto(SetStaged(s, c, work), t, p);
      KeepCallEnds(s, t, id, AfterCall, work, p);
      Unseen(s1, RolesOf(s1), s1.pc, CommitEnds(s, t, id, ch).0.durable, s1.now);
    } else {
      KeepRollback(s, t, id, AfterCall, ch);
    }
  }

  // ---- release ----

  lemma KeepPushLoan(s: State, t: Tid, loan: Loan, ok: bool, c: Conn)
    requires Inv(s) && t in s.pc && s.pc[t] == Push(c, OfLoan(loan, ok)) && s.poolLock == Some(t) && Known(s, s.pc[t])
    ensures Inv(PoolStep(s, t).0)
  {
    hide InvOver, RoleOf;
    LoanRoles(loan, ok, c);
    ShortLocks(s, t);
    var r := RolesOf(s);
    var p := Post(OfLoan(loan, ok));
    var n := RoleOf(p);
    var m := n.(section := AtPool);
    var s1 := s.(idle := s.idle + [c], place := s.place[c := AtIdle]);
    PushLoan(s, r, t, m, c);
    Leave(s1, r, t, m, n);
    Became(s, Unlocked(s1, t), PoolStep(s, t).0, t, p);
  }

  lemma KeepPushTx(s: State, t: Tid, id: Id, after: After, c: Conn)
    requires Inv(s) && t in s.pc && s.pc[t] == Push(c, OfTx(id, after)) && s.poolLock == Some(t)
    requires Known(s, s.pc[t])
    ensures Inv(PoolStep(s, t).0)
  {
    hide InvOver, RoleOf;
    EndingRoles(c, id, after);
    ShortLocks(s, t);
    OwnJob(s, t);
    OwedIsDetached(s, t, id);
    var r := RolesOf(s);
    var p := Post(OfTx(id, after));
    var n := RoleOf(p);
    var m := n.(section := AtPool);
    var s1 := Finished(s.(idle := s.idle + [c], place := s.place[c := AtIdle]), OfTx(id, after));
    PushTx(s, r, t, m, id, s.txs[id].stage.why);
    Leave(s1, r, t, m, n);
    Became(s, Unlocked(s1, t), PoolStep(s, t).0, t, p);
  }

  lemma KeepDropLoan(s: State, t: Tid, loan: Loan, ok: bool, c: Conn)
    requires Inv(s) && t in s.pc && s.pc[t] == Drop(c, OfLoan(loan, ok)) && Known(s, s.pc[t])
    ensures Inv(ReleaseStep(s, t).0)
  {
    hide InvOver, RoleOf;
    LoanRoles(loan, ok, c);
    ShortLocks(s, t);
    var p := Post(OfLoan(loan, ok));
    CloseBorrowed(s, RolesOf(s), t, RoleOf(p), c);
    Became(s, CloseConn(s, c), ReleaseStep(s, t).0, t, p);
  }

  lemma KeepDropTx(s: State, t: Tid, id: Id, after: After, c: Conn)
    requires Inv(s) && t in s.pc && s.pc[t] == Drop(c, OfTx(id, after)) && Known(s, s.pc[t])
    ensures Inv(ReleaseStep(s, t).0)
  {
    hide InvOver, RoleOf;
    EndingRoles(c, id, after);
    ShortLocks(s, t);
    OwnJob(s, t);
    OwedIsDetached(s, t, id);
    var r := RolesOf(s);
    var x := s.txs[id];
    var p := Post(OfTx(id, after));
    TxWork(s, r, t, r[t], id, [], x.executed);
    assert s.txs[id := x.(executed := x.executed)] == s.txs;
    assert r[t := r[t]] == r;
    DropTx(SetStaged(s, c, []), r, t, RoleOf(p), id, x.stage.why);
    var s2 := Finished(CloseConn(s, c), OfTx(id, after));
    Became(s, s2, ReleaseStep(s, t).0, t, p);
  }

  lemma KeepPostLoan(s: State, t: Tid, loan: Loan, ok: bool)
    requires Inv(s) && t in s.pc && s.pc[t] == Post(OfLoan(loan, ok)) && Known(s, s.pc[t])
    ensures Inv(ReleaseStep(s, t).0)
  {
    hide InvOver, RoleOf;
    PermitsNatural(s);
    var p := AfterPost(OfLoan(loan, ok));
    LoanRoles(loan, ok, 0);
    RestingRole(p);
    ShortLocks(s, t);
    MovePermit(s, RolesOf(s), t, RoleOf(p), s.permits + 1);
    Became(s, s.(permits := s.permits + 1), ReleaseStep(s, t).0, t, p);
  }

  lemma KeepPostTx(s: State, t: Tid, id: Id, after: After)
    requires Inv(s) && t in s.pc && s.pc[t] == Post(OfTx(id, after)) && Known(s, s.pc[t])
    ensures Inv(ReleaseStep(s, t).0)
  {
    hide InvOver, RoleOf;
    PermitsNatural(s);
    EndingRoles(0, id, after);
    UnlockRoles(id, after);
    ShortLocks(s, t);
    MovePermit(s, RolesOf(s), t, RoleOf(TxUnlock(id, after)), s.permits + 1);
    Became(s, s.(permits := s.permits + 1), ReleaseStep(s, t).0, t, TxUnlock(id, after));
  }

  lemma KeepTxUnlock(s: State, t: Tid, ch: Choice)
    requires Inv(s) && Enabled(s, t, ch) && s.pc[t].TxUnlock?
    ensures Inv(ReleaseStep(s, t).0)
  {
    hide InvOver, RoleOf;
    var TxUnlock(id, after) := s.pc[t];
    UnlockRoles(id, after);
    ShortLocks(s, t);
    var p := Resume(after);
    GiveTxLock(s, RolesOf(s), t, RoleOf(p), id);
    Became(s, s.(txLock := s.txLock - {id}), ReleaseStep(s, t).0, t, p);
  }

  // ---- shutdown ----

  lemma KeepCloseNext(s: State, t: Tid, ch: Choice)
    requires Inv(s) && Enabled(s, t, ch) && s.pc[t].CloseNext?
    ensures Inv(ShutdownStep(s, t, ch).0)
  {
    hide InvOver, RoleOf;
    var todo := s.pc[t].todo;
    ShutdownRoles(0, todo, []);
    ShortLocks(s, t);
    if todo == [] {
      KeepResting(s, t, Idle);
    } else {
      var p := CloseCall(todo[0], todo[1..]);
      ShutdownRoles(todo[0], todo[1..], []);
      assert [todo[0]] + todo[1..] == todo;
      TakeTxLock(s, RolesOf(s), t, RoleOf(p), todo[0]);
      Became(s, s.(txLock := s.txLock[todo[0] := t]), ShutdownStep(s, t, ch).0, t, p);
    }
  }

  lemma KeepDrainTake(s: State, t: Tid, ch: Choice)
    requires Inv(s) && Enabled(s, t, ch) && s.pc[t].DrainTake? && s.poolLock == Some(t)
    ensures Inv(PoolStep(s, t).0)
  {
    hide InvOver, RoleOf;
    RestingRole(s.pc[t]);
    ShutdownRoles(0, [], s.idle);
    ShortLocks(s, t);
    var r := RolesOf(s);
    var p := DrainClose(s.idle);
    var n := RoleOf(p);
    var m := n.(section := AtPool);
    var s1 := s.(idle := [], place := Drained(s.idle, s.place, t));
    Drain(s, r, t, m);
    Leave(s1, r, t, m, n);
    Became(s, Unlocked(s1, t), PoolStep(s, t).0, t, p);
  }

  lemma KeepDrainClose(s: State, t: Tid, ch: Choice)
    requires Inv(s) && Enabled(s, t, ch) && s.pc[t].DrainClose?
    ensures Inv(ShutdownStep(s, t, ch).0)
  {
    hide InvOver, RoleOf;
    var cs := s.pc[t].conns;
    ShutdownRoles(0, [], cs);
    ShortLocks(s, t);
    if cs == [] {
      KeepResting(s, t, Idle);
    } else {
      var p := DrainClose(cs[1..]);
      ShutdownRoles(0, [], cs[1..]);
      assert cs == [cs[0]] + cs[1..];
      CloseBorrowed(s, RolesOf(s), t, RoleOf(p), cs[0]);
      Became(s, CloseConn(s, cs[0]), ShutdownStep(s, t, ch).0, t, p);
    }
  }
}
