/** Effects on transactions: wrapping a connection, entering and leaving the table, calls on
    the transaction's connection, and giving the connection back. */
module ProtocolTransactions {
  import opened Common
  import opened ProtocolState
  import opened ProtocolSteps
  import opened ProtocolInvariant
  import opened ProtocolEffects

  // ---- a new transaction object around a borrowed connection ----

  lemma GrownJobs(txs: Txs, staged: Work, r: Roles, id: Id, x: Tx)
    requires InvJobs(txs, staged, r) && id !in txs
    ensures InvJobs(txs[id := x], staged, r)
  {
    forall t | t in r
      ensures JobOk(txs[id := x], staged, t, r[t].job)
    {
      assert JobOk(txs, staged, t, r[t].job);
    }
  }

  lemma WrapPlaces(idle: seq<Conn>, place: map<Conn, Place>, r: Roles, t: Tid, n: Role, c: Conn, id: Id)
    requires InvPlaces(idle, place, r) && t in r && r[t].borrowed == [c] && n.borrowed == []
    ensures InvPlaces(idle, place[c := AtTx(id)], r[t := n])
  {
    assert c in r[t].borrowed && place[c] == AtThread(t);
    var place', r' := place[c := AtTx(id)], r[t := n];
    forall u, x | u in r' && x in r'[u].borrowed
      ensures x in place' && place'[x] == AtThread(u)
    {
      assert u != t && x in r[u].borrowed;
    }
    forall x | x in place' && place'[x].AtThread?
      ensures place'[x].t in r' && x in r'[place'[x].t].borrowed
    {
      assert x != c && x in r[place[x].t].borrowed;
    }
  }

  lemma WrapTxPlaces(txs: Txs, place: map<Conn, Place>, id: Id, x: Tx)
    requires InvTxPlaces(txs, place) && id !in txs && Unfinished(x)
    requires x.conn in place && !place[x.conn].AtTx?
    ensures InvTxPlaces(txs[id := x], place[x.conn := AtTx(id)])
  {}

  lemma WrapStages(table: set<Id>, txs: Txs, r: Roles, t: Tid, n: Role, id: Id, x: Tx)
    requires InvStages(table, txs, r) && t in r && table <= txs.Keys && id !in txs
    requires x.stage == Fresh(t) && n.job == Inserting(id) && !r[t].job.Inserting? && n.owes == r[t].owes
    ensures InvStages(table, txs[id := x], r[t := n])
  {}

  lemma WrapWork(txs: Txs, txLock: map<Id, Tid>, staged: Work, r: Roles, t: Tid, n: Role, id: Id, x: Tx)
    requires InvWork(txs, txLock, staged, r) && t in r && !r[t].job.Discarding?
    requires id !in txs && StagedOn(staged, x.conn) == x.executed
    ensures InvWork(txs[id := x], txLock, staged, r[t := n])
  {
    RoleWork(txs, txLock, staged, r, t, n);
  }

  lemma WrapTx(s: State, r: Roles, t: Tid, n: Role, c: Conn, id: Id)
    requires InvOver(s, r) && t in r && id !in s.txs
    requires KnownIds(s.txs.Keys + {id}, n) && WellFormed(n) && SectionFits(s.tableLock, s.poolLock, t, n)
    requires r[t].borrowed == [c] && n.borrowed == [] && !r[t].dirty
    requires r[t].permit && r[t].slot && !n.permit && !n.slot
    requires n.owes == r[t].owes && n.holds == r[t].holds
    requires r[t].job == Nothing && n.job == Inserting(id)
    ensures InvOver(s.(place := s.place[c := AtTx(id)], txs := s.txs[id := Tx(c, s.now, Fresh(t), [])]), r[t := n])
  {
    var x := Tx(c, s.now, Fresh(t), []);
    var txs := s.txs[id := x];
    assert c in r[t].borrowed;
    assert s.place[c] == AtThread(t) && StagedOn(s.staged, c) == [];
    assert txs.Keys == s.txs.Keys + {id};
    GrownIds(s.table, s.txs.Keys, r, t, n, id);
    GrownJobs(s.txs, s.staged, r, id, x);
    RoleJobs(txs, s.staged, r, t, n);
    RoleTxLocks(s.txLock, r, t, n);
    RoleShortLocks(s.tableLock, s.poolLock, r, t, n);
    WrapPlaces(s.idle, s.place, r, t, n, c, id);
    WrapTxPlaces(s.txs, s.place, id, x);
    WrapStages(s.table, s.txs, r, t, n, id, x);
    RoleCounts(r, t, n);
    CountUpdate(s.txs, id, x, Unfinished);
    RoleClean(s.idle, s.staged, r, t, n);
    WrapWork(s.txs, s.txLock, s.staged, r, t, n, id, x);
  }

  lemma GrownIds(table: set<Id>, ids: set<Id>, r: Roles, t: Tid, n: Role, id: Id)
    requires InvIds(table, ids, r) && t in r && KnownIds(ids + {id}, n) && WellFormed(n)
    ensures InvIds(table, ids + {id}, r[t := n])
  {}

  // ---- stages before the end ----

  /** A stage change that does not finish the transaction. */
  lemma Restage(s: State, r: Roles, id: Id, stage: Stage)
    requires InvOver(s, r) && id in s.txs && Unfinished(s.txs[id]) && !stage.Done?
    ensures InvTxPlaces(SetStage(s, id, stage).txs, s.place)
    ensures InvCounts(s.size, s.permits, s.idle, SetStage(s, id, stage).txs, r)
    ensures SetStage(s, id, stage).txs.Keys == s.txs.Keys
  {
    CountUpdate(s.txs, id, s.txs[id].(stage := stage), Unfinished);
  }

  /** The goods of a thread that only moves between stages. */
  lemma StageGoods(s: State, r: Roles, t: Tid, n: Role)
    requires InvOver(s, r) && Fits(s, r, t, n) && SameGoods(r[t], n) && n.holds == r[t].holds
    ensures InvIds(s.table, s.txs.Keys, r[t := n])
    ensures InvTxLocks(s.txLock, r[t := n])
    ensures InvShortLocks(s.tableLock, s.poolLock, r[t := n])
    ensures InvPlaces(s.idle, s.place, r[t := n])
    ensures InvClean(s.idle, s.staged, r[t := n])
    ensures Count(r[t := n], WithPermit) == Count(r, WithPermit)
    ensures Count(r[t := n], WithSlot) == Count(r, WithSlot)
  {
    RoleIds(s.table, s.txs.Keys, r, t, n);
    RoleTxLocks(s.txLock, r, t, n);
    RoleShortLocks(s.tableLock, s.poolLock, r, t, n);
    RolePlaces(s.idle, s.place, r, t, n);
    RoleClean(s.idle, s.staged, r, t, n);
    RoleCounts(r, t, n);
  }

  lemma InsertTx(s: State, r: Roles, t: Tid, n: Role, id: Id)
    requires InvOver(s, r) && Fits(s, r, t, n) && SameGoods(r[t], n) && n.holds == r[t].holds
    requires r[t].job == Inserting(id) && n.job == Nothing && n.owes == r[t].owes && id in s.txs
    ensures InvOver(SetStage(s.(table := s.table + {id}), id, Live), r[t := n])
  {
    assert JobOk(s.txs, s.staged, t, r[t].job);
    Restage(s, r, id, Live);
    StageGoods(s, r, t, n);
    InsertIds(s.table, s.txs.Keys, r[t := n], id);
    InsertJobs(s.txs, s.staged, r, t, n, id);
    InsertStages(s.table, s.txs, r, t, n, id);
    RestageWork(s.txs, s.txLock, s.staged, r, t, n, id, Live);
  }

  lemma InsertIds(table: set<Id>, ids: set<Id>, r: Roles, id: Id)
    requires InvIds(table, ids, r) && id in ids
    ensures InvIds(table + {id}, ids, r)
  {}

  lemma InsertJobs(txs: Txs, staged: Work, r: Roles, t: Tid, n: Role, id: Id)
    requires InvJobs(txs, staged, r) && t in r && r[t].job == Inserting(id) && n.job == Nothing && id in txs
    ensures InvJobs(txs[id := txs[id].(stage := Live)], staged, r[t := n])
  {
    var txs' := txs[id := txs[id].(stage := Live)];
    assert JobOk(txs, staged, t, r[t].job);
    forall u | u in r && u != t
      ensures JobOk(txs', staged, u, r[u].job)
    {
      assert JobOk(txs, staged, u, r[u].job);
    }
  }

  lemma InsertStages(table: set<Id>, txs: Txs, r: Roles, t: Tid, n: Role, id: Id)
    requires InvStages(table, txs, r) && t in r && id in txs && txs[id].stage == Fresh(t)
    requires r[t].job == Inserting(id) && n.job == Nothing && n.owes == r[t].owes
    ensures InvStages(table + {id}, txs[id := txs[id].(stage := Live)], r[t := n])
  {}

  lemma RestageWork(txs: Txs, txLock: map<Id, Tid>, staged: Work, r: Roles, t: Tid, n: Role, id: Id, stage: Stage)
    requires InvWork(txs, txLock, staged, r) && t in r && id in txs
    requires Open(txs[id].(stage := stage)) ==> Open(txs[id])
    requires r[t].job.Discarding? ==> r[t].job == Discarding(id) && !stage.Fresh? && !stage.Live?
    ensures InvWork(txs[id := txs[id].(stage := stage)], txLock, staged, r[t := n])
  {
    var txs' := txs[id := txs[id].(stage := stage)];
    forall i | i in txs' && Open(txs'[i]) && !Spoiled(txLock, r[t := n], i)
      ensures StagedOn(staged, txs'[i].conn) == txs'[i].executed
    {
      assert !Spoiled(txLock, r, i);
    }
  }

  // ---- removal from the table ----

  /** Nobody but the remover has a job that depends on a live transaction staying live. */
  lemma DetachJobs(table: set<Id>, txs: Txs, staged: Work, r: Roles, t: Tid, n: Role, id: Id, stage: Stage)
    requires InvJobs(txs, staged, r) && t in r && id in txs && txs[id].stage.Live? && stage.Detached?
    requires JobOk(txs[id := txs[id].(stage := stage)], staged, t, n.job)
    ensures InvJobs(txs[id := txs[id].(stage := stage)], staged, r[t := n])
  {
    var txs' := txs[id := txs[id].(stage := stage)];
    forall u | u in r && u != t
      ensures JobOk(txs', staged, u, r[u].job)
    {
      assert JobOk(txs, staged, u, r[u].job);
    }
  }

  lemma DetachStages(table: set<Id>, txs: Txs, r: Roles, t: Tid, n: Role, id: Id, why: Reason)
    requires InvStages(table, txs, r) && t in r && id in txs && txs[id].stage.Live?
    requires r[t].owes == [] && n.owes == [id] && !r[t].job.Inserting? && !n.job.Inserting?
    ensures InvStages(table - {id}, txs[id := txs[id].(stage := Detached(t, why))], r[t := n])
  {}

  lemma DetachIds(table: set<Id>, ids: set<Id>, r: Roles, id: Id)
    requires InvIds(table, ids, r)
    ensures InvIds(table - {id}, ids, r)
  {}

  lemma Detach(s: State, r: Roles, t: Tid, n: Role, id: Id, why: Reason)
    requires InvOver(s, r) && Fits(s, r, t, n) && SameGoods(r[t], n) && n.holds == r[t].holds
    requires id in s.table && id in s.txs && r[t].owes == [] && n.owes == [id]
    requires r[t].job == Nothing || r[t].job == Discarding(id)
    requires !n.job.Inserting? && !n.job.Discarding?
    requires JobOk(SetStage(s, id, Detached(t, why)).txs, s.staged, t, n.job)
    ensures InvOver(SetStage(s.(table := s.table - {id}), id, Detached(t, why)), r[t := n])
  {
    Restage(s, r, id, Detached(t, why));
    StageGoods(s, r, t, n);
    DetachIds(s.table, s.txs.Keys, r[t := n], id);
    DetachJobs(s.table, s.txs, s.staged, r, t, n, id, Detached(t, why));
    DetachStages(s.table, s.txs, r, t, n, id, why);
    RestageWork(s.txs, s.txLock, s.staged, r, t, n, id, Detached(t, why));
  }

  // ---- close() empties the table ----

  lemma DetachAll(s: State, r: Roles, t: Tid, n: Role)
    requires InvOver(s, r) && Fits(s, r, t, n) && SameGoods(r[t], n) && n.holds == r[t].holds
    requires r[t].owes == [] && Enumerates(n.owes, s.table) && r[t].job == n.job == Nothing
    ensures InvOver(s.(table := {}, txs := Shut(s.table, s.txs, t)), r[t := n])
  {
    var txs := Shut(s.table, s.txs, t);
    StageGoods(s, r, t, n);
    assert txs.Keys == s.txs.Keys;
    CountSame(s.txs, txs, Unfinished);
    EmptyIds(s.table, s.txs.Keys, r[t := n]);
    ShutJobs(s.table, s.txs, s.staged, r, t, n);
    ShutPlaces(s.table, s.txs, s.place, r, t);
    ShutStages(s.table, s.txs, r, t, n);
    ShutWork(s.table, s.txs, s.txLock, s.staged, r, t, n);
  }

  lemma EmptyIds(table: set<Id>, ids: set<Id>, r: Roles)
    requires InvIds(table, ids, r)
    ensures InvIds({}, ids, r)
  {}

  lemma ShutJobs(table: set<Id>, txs: Txs, staged: Work, r: Roles, t: Tid, n: Role)
    requires InvJobs(txs, staged, r) && InvStages(table, txs, r) && t in r && n.job == Nothing
    ensures InvJobs(Shut(table, txs, t), staged, r[t := n])
  {
    forall u | u in r && u != t
      ensures JobOk(Shut(table, txs, t), staged, u, r[u].job)
    {
      assert JobOk(txs, staged, u, r[u].job);
    }
  }

  lemma ShutPlaces(table: set<Id>, txs: Txs, place: map<Conn, Place>, r: Roles, t: Tid)
    requires InvTxPlaces(txs, place) && InvStages(table, txs, r)
    ensures InvTxPlaces(Shut(table, txs, t), place)
  {}

  lemma ShutStages(table: set<Id>, txs: Txs, r: Roles, t: Tid, n: Role)
    requires InvStages(table, txs, r) && t in r && table <= txs.Keys
    requires r[t].owes == [] && Enumerates(n.owes, table) && r[t].job == n.job == Nothing
    ensures InvStages({}, Shut(table, txs, t), r[t := n])
  {}

  lemma ShutWork(table: set<Id>, txs: Txs, txLock: map<Id, Tid>, staged: Work, r: Roles, t: Tid, n: Role)
    requires InvWork(txs, txLock, staged, r) && InvStages(table, txs, r) && t in r && r[t].job == n.job == Nothing
    ensures InvWork(Shut(table, txs, t), txLock, staged, r[t := n])
  {
    forall i | i in txs && Open(Shut(table, txs, t)[i]) && !Spoiled(txLock, r[t := n], i)
      ensures StagedOn(staged, txs[i].conn) == txs[i].executed
    {
      assert !Spoiled(txLock, r, i);
    }
  }

  // ---- a call on the transaction's connection ----

  /** Where the connections of another thread's job are. */
  ghost predicate Apart(txs: Txs, place: map<Conn, Place>, id: Id, job: Job) {
    && (job.Finishing? || job.PushingTx? ==> job.id != id)
    && (job.PushingTx? ==> job.id in txs && Unfinished(txs[job.id]))
    && (job.Pushing? ==> job.conn in place && place[job.conn].AtThread?)
  }

  lemma Elsewhere(s: State, r: Roles, t: Tid, u: Tid, id: Id)
    requires InvIds(s.table, s.txs.Keys, r) && InvTxLocks(s.txLock, r) && InvPlaces(s.idle, s.place, r)
    requires InvStages(s.table, s.txs, r)
    requires t in r && u in r && u != t && r[t].holds == Some(id)
    ensures Apart(s.txs, s.place, id, r[u].job)
  {
    assert WellFormed(r[u]);
    assert r[u].holds != Some(id);
    if r[u].job.PushingTx? {
      assert r[u].job.id in r[u].owes;
    }
  }

  /** Two unfinished transactions, or a transaction and a borrower, never share a connection. */
  lemma OtherTxJob(txs: Txs, staged: Work, place: map<Conn, Place>, u: Tid, job: Job, id: Id,
                   work: seq<Write>, executed: seq<Write>)
    requires JobOk(txs, staged, u, job) && InvTxPlaces(txs, place)
    requires id in txs && Unfinished(txs[id]) && Apart(txs, place, id, job)
    ensures JobOk(txs[id := txs[id].(executed := executed)], staged[txs[id].conn := work], u, job)
  {
    assert place[txs[id].conn] == AtTx(id);
  }

  lemma TxWorkOnly(txs: Txs, txLock: map<Id, Tid>, staged: Work, place: map<Conn, Place>, r: Roles,
                   t: Tid, n: Role, id: Id, work: seq<Write>, executed: seq<Write>)
    requires InvWork(txs, txLock, staged, r) && InvTxPlaces(txs, place) && t in r && !r[t].job.Discarding?
    requires id in txs && Unfinished(txs[id]) && id in txLock && txLock[id] == t
    requires Open(txs[id]) ==> work == executed || n.job == Discarding(id)
    ensures InvWork(txs[id := txs[id].(executed := executed)], txLock, staged[txs[id].conn := work], r[t := n])
  {
    var txs' := txs[id := txs[id].(executed := executed)];
    var staged' := staged[txs[id].conn := work];
    forall i | i in txs' && Open(txs'[i]) && !Spoiled(txLock, r[t := n], i)
      ensures StagedOn(staged', txs'[i].conn) == txs'[i].executed
    {
      assert !Spoiled(txLock, r, i);
    }
  }

  lemma TxClean(s: State, r: Roles, t: Tid, n: Role, id: Id, work: seq<Write>)
    requires InvOver(s, r) && t in r && id in s.txs && Unfinished(s.txs[id]) && SameGoods(r[t], n)
    ensures InvClean(s.idle, s.staged[s.txs[id].conn := work], r[t := n])
  {
    var c := s.txs[id].conn;
    assert s.place[c] == AtTx(id);
    RoleClean(s.idle, s.staged, r, t, n);
    OtherClean(s.idle, s.place, s.staged, r[t := n], c, work) by { RolePlaces(s.idle, s.place, r, t, n); }
  }

  lemma OtherClean(idle: seq<Conn>, place: map<Conn, Place>, staged: Work, r: Roles, c: Conn, work: seq<Write>)
    requires InvClean(idle, staged, r) && InvPlaces(idle, place, r) && c in place && place[c].AtTx?
    ensures InvClean(idle, staged[c := work], r)
  {
    forall u, x | u in r && !r[u].dirty && x in r[u].borrowed
      ensures StagedOn(staged[c := work], x) == []
    {
      assert StagedOn(staged, x) == [];
    }
  }

  /** The RFC of the lock owner ends: staged work and executed writes become known. */
  lemma TxWork(s: State, r: Roles, t: Tid, n: Role, id: Id, work: seq<Write>, executed: seq<Write>)
    requires InvOver(s, r) && Fits(s, r, t, n) && SameGoods(r[t], n) && SameDuty(r[t], n)
    requires id in s.txs && Unfinished(s.txs[id]) && r[t].holds == n.holds == Some(id)
    requires !r[t].job.Discarding?
    requires Open(s.txs[id]) ==> work == executed || n.job == Discarding(id)
    requires JobOk(s.txs[id := s.txs[id].(executed := executed)], s.staged[s.txs[id].conn := work], t, n.job)
    ensures InvOver(s.(txs := s.txs[id := s.txs[id].(executed := executed)],
                       staged := s.staged[s.txs[id].conn := work]), r[t := n])
  {
    var x := s.txs[id].(executed := executed);
    var txs := s.txs[id := x];
    var staged := s.staged[x.conn := work];
    assert txs.Keys == s.txs.Keys;
    StageGoods(s, r, t, n);
    CountUpdate(s.txs, id, x, Unfinished);
    TxJobs(s, r, t, n, id, work, executed);
    RoleStages(s.table, s.txs, r, t, n);
    AlikeFrame(s.table, s.txs, s.place, r[t := n], id, x);
    TxClean(s, r, t, n, id, work);
    TxWorkOnly(s.txs, s.txLock, s.staged, s.place, r, t, n, id, work, executed);
  }

  lemma TxJobs(s: State, r: Roles, t: Tid, n: Role, id: Id, work: seq<Write>, executed: seq<Write>)
    requires InvOver(s, r) && t in r && r[t].holds == Some(id) && id in s.txs && Unfinished(s.txs[id])
    requires JobOk(s.txs[id := s.txs[id].(executed := executed)], s.staged[s.txs[id].conn := work], t, n.job)
    ensures InvJobs(s.txs[id := s.txs[id].(executed := executed)], s.staged[s.txs[id].conn := work], r[t := n])
  {
    var txs := s.txs[id := s.txs[id].(executed := executed)];
    var staged := s.staged[s.txs[id].conn := work];
    forall u | u in r && u != t
      ensures JobOk(txs, staged, u, r[u].job)
    {
      Elsewhere(s, r, t, u, id);
      OtherTxJob(s.txs, s.staged, s.place, u, r[u].job, id, work, executed);
    }
  }

  predicate Alike(x: Tx, y: Tx) { x.conn == y.conn && x.stage == y.stage }

  lemma AlikeFrame(table: set<Id>, txs: Txs, place: map<Conn, Place>, r: Roles, id: Id, x: Tx)
    requires InvStages(table, txs, r) && InvTxPlaces(txs, place) && id in txs && Alike(x, txs[id])
    ensures InvStages(table, txs[id := x], r)
    ensures InvTxPlaces(txs[id := x], place)
  {}

  /** `active.last_used = time.monotonic()` */
  lemma Touch(s: State, r: Roles, id: Id, now: int)
    requires InvOver(s, r) && id in s.txs
    ensures InvOver(s.(txs := s.txs[id := s.txs[id].(lastUsed := now)]), r)
  {
    var x := s.txs[id].(lastUsed := now);
    assert s.txs[id := x].Keys == s.txs.Keys;
    CountUpdate(s.txs, id, x, Unfinished);
    TouchJobs(s.txs, s.staged, r, id, now);
    TouchWork(s.txs, s.txLock, s.staged, r, id, now);
    AlikeFrame(s.table, s.txs, s.place, r, id, x);
  }

  lemma TouchJobs(txs: Txs, staged: Work, r: Roles, id: Id, now: int)
    requires InvJobs(txs, staged, r) && id in txs
    ensures InvJobs(txs[id := txs[id].(lastUsed := now)], staged, r)
  {
    forall u | u in r
      ensures JobOk(txs[id := txs[id].(lastUsed := now)], staged, u, r[u].job)
    {
      assert JobOk(txs, staged, u, r[u].job);
    }
  }

  lemma TouchWork(txs: Txs, txLock: map<Id, Tid>, staged: Work, r: Roles, id: Id, now: int)
    requires InvWork(txs, txLock, staged, r) && id in txs
    ensures InvWork(txs[id := txs[id].(lastUsed := now)], txLock, staged, r)
  {}

  // ---- the end: the connection is given back ----

  lemma EndJobs(s: State, r: Roles, t: Tid, n: Role, id: Id, stage: Stage)
    requires InvOver(s, r) && t in r && id in s.txs && r[t].holds == Some(id) && n.job == Nothing
    requires s.txs[id].stage.Detached?
    ensures InvJobs(SetStage(s, id, stage).txs, s.staged, r[t := n])
  {
    forall u | u in r && u != t
      ensures JobOk(SetStage(s, id, stage).txs, s.staged, u, r[u].job)
    {
      assert JobOk(s.txs, s.staged, u, r[u].job) && WellFormed(r[u]);
      assert r[u].holds != Some(id);
    }
  }

  lemma EndStages(table: set<Id>, txs: Txs, r: Roles, t: Tid, n: Role, id: Id, why: Reason)
    requires InvStages(table, txs, r) && t in r && id in txs
    requires r[t].owes == [id] + n.owes && !r[t].job.Inserting? && !n.job.Inserting?
    ensures InvStages(table, txs[id := txs[id].(stage := Done(why))], r[t := n])
  {
    var old' := r[t].owes;
    assert old'[0] == id;
    assert id in old';
    forall i | 0 <= i < |n.owes|
      ensures n.owes[i] == old'[i + 1]
    {}
    forall x | x in n.owes
      ensures x in old' && x != id
    {
      var i :| 0 <= i < |n.owes| && n.owes[i] == x;
      assert old'[i + 1] == x;
    }
  }

  lemma EndTxPlaces(txs: Txs, place: map<Conn, Place>, id: Id, why: Reason, p: Place)
    requires InvTxPlaces(txs, place) && id in txs && Unfinished(txs[id]) && !p.AtTx?
    ensures InvTxPlaces(txs[id := txs[id].(stage := Done(why))], place[txs[id].conn := p])
  {}

  /** What both ways of giving the connection back have in common. */
  lemma EndTx(s: State, r: Roles, t: Tid, n: Role, id: Id, why: Reason, p: Place)
    requires InvOver(s, r) && Fits(s, r, t, n) && id in s.txs && !p.AtTx?
    requires r[t].holds == n.holds == Some(id) && r[t].owes == [id] + n.owes
    requires !r[t].job.Inserting? && !r[t].job.Discarding? && n.job == Nothing
    ensures InvIds(s.table, s.txs.Keys, r[t := n])
    ensures InvTxLocks(s.txLock, r[t := n])
    ensures InvShortLocks(s.tableLock, s.poolLock, r[t := n])
    ensures InvJobs(SetStage(s, id, Done(why)).txs, s.staged, r[t := n])
    ensures InvStages(s.table, SetStage(s, id, Done(why)).txs, r[t := n])
    ensures InvTxPlaces(SetStage(s, id, Done(why)).txs, s.place[s.txs[id].conn := p])
    ensures InvWork(SetStage(s, id, Done(why)).txs, s.txLock, s.staged, r[t := n])
    ensures SetStage(s, id, Done(why)).txs.Keys == s.txs.Keys
    ensures s.txs[id].stage.Detached?
    ensures Count(SetStage(s, id, Done(why)).txs, Unfinished) + 1 == Count(s.txs, Unfinished)
  {
    assert r[t].owes[0] == id;
    assert id in r[t].owes;
    RoleIds(s.table, s.txs.Keys, r, t, n);
    RoleTxLocks(s.txLock, r, t, n);
    RoleShortLocks(s.tableLock, s.poolLock, r, t, n);
    EndJobs(s, r, t, n, id, Done(why));
    EndStages(s.table, s.txs, r, t, n, id, why);
    EndTxPlaces(s.txs, s.place, id, why, p);
    RestageWork(s.txs, s.txLock, s.staged, r, t, n, id, Done(why));
    CountUpdate(s.txs, id, s.txs[id].(stage := Done(why)), Unfinished);
  }

  lemma PushTxPlaces(idle: seq<Conn>, place: map<Conn, Place>, r: Roles, t: Tid, n: Role, c: Conn)
    requires InvPlaces(idle, place, r) && t in r && n.borrowed == r[t].borrowed
    requires c in place && place[c].AtTx?
    ensures InvPlaces(idle + [c], place[c := AtIdle], r[t := n])
  {}

  lemma PushTx(s: State, r: Roles, t: Tid, n: Role, id: Id, why: Reason)
    requires InvOver(s, r) && Fits(s, r, t, n) && id in s.txs
    requires r[t].holds == n.holds == Some(id) && r[t].owes == [id] + n.owes
    requires r[t].job == PushingTx(id, s.txs[id].conn) && n.job == Nothing
    requires r[t].borrowed == n.borrowed == [] && !r[t].permit && n.permit && !r[t].slot && !n.slot
    ensures InvOver(SetStage(s.(idle := s.idle + [s.txs[id].conn], place := s.place[s.txs[id].conn := AtIdle]),
                             id, Done(why)), r[t := n])
  {
    var c := s.txs[id].conn;
    EndTx(s, r, t, n, id, why, AtIdle);
    assert s.place[c] == AtTx(id);
    PushTxPlaces(s.idle, s.place, r, t, n, c);
    RoleCounts(r, t, n);
    assert JobOk(s.txs, s.staged, t, r[t].job);
    RoleClean(s.idle, s.staged, r, t, n);
  }

  lemma DropTxPlaces(idle: seq<Conn>, place: map<Conn, Place>, r: Roles, t: Tid, n: Role, c: Conn)
    requires InvPlaces(idle, place, r) && t in r && n.borrowed == r[t].borrowed
    requires c in place && place[c].AtTx?
    ensures InvPlaces(idle, place[c := Closed], r[t := n])
  {}

  /** The staged work went with the connection before: see `TxWork`. */
  lemma DropTx(s: State, r: Roles, t: Tid, n: Role, id: Id, why: Reason)
    requires InvOver(s, r) && Fits(s, r, t, n) && id in s.txs
    requires r[t].holds == n.holds == Some(id) && r[t].owes == [id] + n.owes
    requires r[t].job == DroppingTx(id, s.txs[id].conn) && n.job == Nothing
    requires r[t].borrowed == n.borrowed == [] && !r[t].permit && n.permit && !r[t].slot && !n.slot
    ensures InvOver(SetStage(s.(place := s.place[s.txs[id].conn := Closed]), id, Done(why)), r[t := n])
  {
    var c := s.txs[id].conn;
    EndTx(s, r, t, n, id, why, Closed);
    assert s.place[c] == AtTx(id);
    DropTxPlaces(s.idle, s.place, r, t, n, c);
    RoleCounts(r, t, n);
    RoleClean(s.idle, s.staged, r, t, n);
  }
}
