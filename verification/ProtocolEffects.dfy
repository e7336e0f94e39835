/** Each elementary change to the shared state keeps the invariant, whatever the other
    threads are doing. `r[t := n]` is the situation after thread `t` took the role `n`. */
module ProtocolEffects {
  import opened Common
  import opened ProtocolState
  import opened ProtocolSteps
  import opened ProtocolInvariant

  // ---- one thread's role changes, the shared data does not ----

  lemma RoleIds(table: set<Id>, ids: set<Id>, r: Roles, t: Tid, n: Role)
    requires InvIds(table, ids, r) && t in r && KnownIds(ids, n) && WellFormed(n)
    ensures InvIds(table, ids, r[t := n])
  {}

  lemma RoleJobs(txs: Txs, staged: Work, r: Roles, t: Tid, n: Role)
    requires InvJobs(txs, staged, r) && JobOk(txs, staged, t, n.job)
    ensures InvJobs(txs, staged, r[t := n])
  {}

  lemma RoleTxLocks(txLock: map<Id, Tid>, r: Roles, t: Tid, n: Role)
    requires InvTxLocks(txLock, r) && t in r && n.holds == r[t].holds
    ensures InvTxLocks(txLock, r[t := n])
  {}

  predicate SectionFits(tableLock: Option<Tid>, poolLock: Option<Tid>, t: Tid, n: Role) {
    && (tableLock == Some(t) ==> n.section == InTable)
    && (poolLock == Some(t) ==> n.section in {AtPool, InPool})
    && (n.section == InPool ==> poolLock == Some(t))
  }

  lemma RoleShortLocks(tableLock: Option<Tid>, poolLock: Option<Tid>, r: Roles, t: Tid, n: Role)
    requires InvShortLocks(tableLock, poolLock, r) && t in r && SectionFits(tableLock, poolLock, t, n)
    ensures InvShortLocks(tableLock, poolLock, r[t := n])
  {}

  lemma RolePlaces(idle: seq<Conn>, place: map<Conn, Place>, r: Roles, t: Tid, n: Role)
    requires InvPlaces(idle, place, r) && t in r && n.borrowed == r[t].borrowed
    ensures InvPlaces(idle, place, r[t := n])
  {}

  /** The thread keeps what it owes and does not stop, or start, inserting a transaction. */
  predicate SameDuty(m: Role, n: Role) {
    n.owes == m.owes && (m.job.Inserting? || n.job.Inserting? ==> n.job == m.job)
  }

  lemma RoleStages(table: set<Id>, txs: Txs, r: Roles, t: Tid, n: Role)
    requires InvStages(table, txs, r) && t in r && SameDuty(r[t], n)
    ensures InvStages(table, txs, r[t := n])
  {}

  lemma RoleCounts(r: Roles, t: Tid, n: Role)
    requires t in r
    ensures Count(r[t := n], WithPermit) + One(r[t].permit) == Count(r, WithPermit) + One(n.permit)
    ensures Count(r[t := n], WithSlot) + One(r[t].slot) == Count(r, WithSlot) + One(n.slot)
  {
    CountUpdate(r, t, n, WithPermit);
    CountUpdate(r, t, n, WithSlot);
  }

  lemma RoleClean(idle: seq<Conn>, staged: Work, r: Roles, t: Tid, n: Role)
    requires InvClean(idle, staged, r) && t in r
    requires n.dirty || forall c | c in n.borrowed :: StagedOn(staged, c) == []
    ensures InvClean(idle, staged, r[t := n])
  {}

  /** A thread stops discarding only what can no longer be committed. */
  predicate NoAmnesty(txs: Txs, m: Role, n: Role) {
    m.job.Discarding? ==> n.job == m.job || (m.job.id in txs && !Open(txs[m.job.id]))
  }

  lemma RoleWork(txs: Txs, txLock: map<Id, Tid>, staged: Work, r: Roles, t: Tid, n: Role)
    requires InvWork(txs, txLock, staged, r) && t in r && NoAmnesty(txs, r[t], n)
    ensures InvWork(txs, txLock, staged, r[t := n])
  {
    forall id | id in txs && Open(txs[id]) && !Spoiled(txLock, r[t := n], id)
      ensures StagedOn(staged, txs[id].conn) == txs[id].executed
    {
      assert !Spoiled(txLock, r, id);
    }
  }

  // ---- locks ----

  lemma TakeTableLock(s: State, r: Roles, t: Tid)
    requires InvOver(s, r) && t in r && r[t].section == InTable && s.tableLock == None
    ensures InvOver(s.(tableLock := Some(t)), r)
  {}

  lemma TakePoolLock(s: State, r: Roles, t: Tid)
    requires InvOver(s, r) && t in r && r[t].section == AtPool && s.poolLock == None
    ensures InvOver(s.(poolLock := Some(t)), r)
  {}

  /** `n` has the same possessions as `m`. */
  predicate SameGoods(m: Role, n: Role) {
    m.borrowed == n.borrowed && m.permit == n.permit && m.slot == n.slot && (m.dirty ==> n.dirty)
  }

  lemma ReleaseShortLocks(s: State, r: Roles, t: Tid, n: Role, tableLock: Option<Tid>, poolLock: Option<Tid>)
    requires InvShortLocks(s.tableLock, s.poolLock, r) && t in r
    requires tableLock == s.tableLock || (s.tableLock == Some(t) && tableLock == None)
    requires poolLock == s.poolLock || (s.poolLock == Some(t) && poolLock == None)
    requires SectionFits(tableLock, poolLock, t, n)
    ensures InvShortLocks(tableLock, poolLock, r[t := n])
  {}

  lemma RoleGoods(s: State, r: Roles, t: Tid, n: Role)
    requires InvOver(s, r) && t in r && SameGoods(r[t], n)
    ensures InvPlaces(s.idle, s.place, r[t := n])
    ensures InvCounts(s.size, s.permits, s.idle, s.txs, r[t := n])
    ensures InvClean(s.idle, s.staged, r[t := n])
  {
    RolePlaces(s.idle, s.place, r, t, n);
    RoleCounts(r, t, n);
    RoleClean(s.idle, s.staged, r, t, n);
  }

  /** The thread moves on with the same possessions; it may leave a critical section. */
  lemma Walk(s: State, r: Roles, t: Tid, n: Role, tableLock: Option<Tid>, poolLock: Option<Tid>)
    requires InvOver(s, r) && t in r
    requires SameGoods(r[t], n) && SameDuty(r[t], n) && n.holds == r[t].holds
    requires KnownIds(s.txs.Keys, n) && WellFormed(n) && JobOk(s.txs, s.staged, t, n.job) && NoAmnesty(s.txs, r[t], n)
    requires tableLock == s.tableLock || (s.tableLock == Some(t) && tableLock == None)
    requires poolLock == s.poolLock || (s.poolLock == Some(t) && poolLock == None)
    requires SectionFits(tableLock, poolLock, t, n)
    ensures InvOver(s.(tableLock := tableLock, poolLock := poolLock), r[t := n])
  {
    RoleIds(s.table, s.txs.Keys, r, t, n);
    RoleJobs(s.txs, s.staged, r, t, n);
    RoleTxLocks(s.txLock, r, t, n);
    ReleaseShortLocks(s, r, t, n, tableLock, poolLock);
    RoleGoods(s, r, t, n);
    RoleStages(s.table, s.txs, r, t, n);
    RoleWork(s.txs, s.txLock, s.staged, r, t, n);
  }

  /** What every effect below needs of the new role: it is well formed and stays within the
      short critical section it is in. */
  ghost predicate Fits(s: State, r: Roles, t: Tid, n: Role) {
    t in r && KnownIds(s.txs.Keys, n) && WellFormed(n) && SectionFits(s.tableLock, s.poolLock, t, n)
  }

  // ---- transaction locks ----

  lemma TakeTxLock(s: State, r: Roles, t: Tid, n: Role, id: Id)
    requires InvOver(s, r) && Fits(s, r, t, n)
    requires id !in s.txLock && r[t].holds == None && n.holds == Some(id)
    requires SameGoods(r[t], n) && SameDuty(r[t], n) && r[t].job == n.job == Nothing
    ensures InvOver(s.(txLock := s.txLock[id := t]), r[t := n])
  {
    RoleIds(s.table, s.txs.Keys, r, t, n);
    RoleJobs(s.txs, s.staged, r, t, n);
    RoleShortLocks(s.tableLock, s.poolLock, r, t, n);
    RoleGoods(s, r, t, n);
    RoleStages(s.table, s.txs, r, t, n);
    LockedTx(s.txs, s.txLock, s.staged, r, t, n, id);
  }

  lemma LockedTx(txs: Txs, txLock: map<Id, Tid>, staged: Work, r: Roles, t: Tid, n: Role, id: Id)
    requires InvTxLocks(txLock, r) && InvWork(txs, txLock, staged, r) && t in r
    requires id !in txLock && r[t].holds == None && n.holds == Some(id) && r[t].job == n.job == Nothing
    ensures InvTxLocks(txLock[id := t], r[t := n]) && InvWork(txs, txLock[id := t], staged, r[t := n])
  {
    forall i | i in txs && Open(txs[i]) && !Spoiled(txLock[id := t], r[t := n], i)
      ensures StagedOn(staged, txs[i].conn) == txs[i].executed
    {
      assert !Spoiled(txLock, r, i);
    }
  }

  lemma GiveTxLock(s: State, r: Roles, t: Tid, n: Role, id: Id)
    requires InvOver(s, r) && Fits(s, r, t, n)
    requires r[t].holds == Some(id) && n.holds == None
    requires SameGoods(r[t], n) && SameDuty(r[t], n) && r[t].job == n.job == Nothing
    ensures InvOver(s.(txLock := s.txLock - {id}), r[t := n])
  {
    RoleIds(s.table, s.txs.Keys, r, t, n);
    RoleJobs(s.txs, s.staged, r, t, n);
    RoleShortLocks(s.tableLock, s.poolLock, r, t, n);
    RoleGoods(s, r, t, n);
    RoleStages(s.table, s.txs, r, t, n);
    UnlockedTx(s.txs, s.txLock, s.staged, r, t, n, id);
  }

  lemma UnlockedTx(txs: Txs, txLock: map<Id, Tid>, staged: Work, r: Roles, t: Tid, n: Role, id: Id)
    requires InvTxLocks(txLock, r) && InvWork(txs, txLock, staged, r) && t in r
    requires r[t].holds == Some(id) && n.holds == None && r[t].job == n.job == Nothing
    ensures InvTxLocks(txLock - {id}, r[t := n]) && InvWork(txs, txLock - {id}, staged, r[t := n])
  {
    forall i | i in txs && Open(txs[i]) && !Spoiled(txLock - {id}, r[t := n], i)
      ensures StagedOn(staged, txs[i].conn) == txs[i].executed
    {
      assert !Spoiled(txLock, r, i);
    }
  }

  // ---- permits and slots ----

  /** A semaphore operation: the permit moves between the semaphore and the thread. */
  lemma MovePermit(s: State, r: Roles, t: Tid, n: Role, permits: int)
    requires InvOver(s, r) && Fits(s, r, t, n)
    requires permits >= 0 && permits + One(n.permit) == s.permits + One(r[t].permit)
    requires n.borrowed == r[t].borrowed == [] && !n.slot && !r[t].slot
    requires SameDuty(r[t], n) && n.holds == r[t].holds && r[t].job == n.job == Nothing
    ensures InvOver(s.(permits := permits), r[t := n])
  {
    RoleIds(s.table, s.txs.Keys, r, t, n);
    RoleJobs(s.txs, s.staged, r, t, n);
    RoleTxLocks(s.txLock, r, t, n);
    RoleShortLocks(s.tableLock, s.poolLock, r, t, n);
    RolePlaces(s.idle, s.place, r, t, n);
    RoleCounts(r, t, n);
    RoleClean(s.idle, s.staged, r, t, n);
    RoleStages(s.table, s.txs, r, t, n);
    RoleWork(s.txs, s.txLock, s.staged, r, t, n);
  }

  lemma CountLess(r: Roles, t: Tid)
    requires t in r && r[t].permit && !r[t].slot && forall u | u in r :: r[u].slot ==> r[u].permit
    ensures Count(r, WithSlot) < Count(r, WithPermit)
  {
    assert t in Keys(r, WithPermit) - Keys(r, WithSlot);
    assert Keys(r, WithSlot) <= Keys(r, WithPermit) - {t};
    SubsetSize(Keys(r, WithSlot), Keys(r, WithPermit) - {t});
  }

  lemma SubsetSize<T>(a: set<T>, b: set<T>)
    requires a <= b
    ensures |a| <= |b|
  {
    assert b == a + (b - a);
  }

  /** Opening starts only when the idle list was empty, so there is room for one more. */
  lemma MoveSlot(s: State, r: Roles, t: Tid, n: Role)
    requires InvOver(s, r) && Fits(s, r, t, n)
    requires n.slot ==> s.idle == [] && r[t].permit && !r[t].slot
    requires n.borrowed == r[t].borrowed == [] && n.permit == r[t].permit
    requires SameDuty(r[t], n) && n.holds == r[t].holds && r[t].job == n.job == Nothing
    ensures InvOver(s, r[t := n])
  {
    RoleIds(s.table, s.txs.Keys, r, t, n);
    RoleJobs(s.txs, s.staged, r, t, n);
    RoleTxLocks(s.txLock, r, t, n);
    RoleShortLocks(s.tableLock, s.poolLock, r, t, n);
    RolePlaces(s.idle, s.place, r, t, n);
    RoleCounts(r, t, n);
    if n.slot { CountLess(r, t); }
    RoleClean(s.idle, s.staged, r, t, n);
    RoleStages(s.table, s.txs, r, t, n);
    RoleWork(s.txs, s.txLock, s.staged, r, t, n);
  }
}
