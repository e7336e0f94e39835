/** What holds in every reachable state of the protocol.

    A thread matters to the others only through its role: the lock it holds, the
    connections it borrowed, the transactions it owes a release, its permit. The invariant
    is stated over roles, so that a step is checked against what it changes and not
    against every program counter of every other thread. */
module ProtocolInvariant {
  import opened Common
  import opened ProtocolState
  import opened ProtocolSteps

  /** Which short critical section the thread's next statement belongs to. */
  datatype Section = Outside | InTable | AtPool | InPool

  /** The part of the program counter with an obligation about shared data. */
  datatype Job =
    | Nothing
    | Inserting(id: Id)
    | Writing(id: Id)
    | Discarding(id: Id)
    | Finishing(id: Id, why: Reason)
    | Pushing(conn: Conn)
    | PushingTx(id: Id, conn: Conn)
    | DroppingTx(id: Id, conn: Conn)

  datatype Role = Role(
    section: Section,
    holds: Option<Id>,
    borrowed: seq<Conn>,
    dirty: bool,            // the borrowed connection is about to be closed
    owes: seq<Id>,
    refers: seq<Id>,
    permit: bool,
    slot: bool,
    job: Job)

  function SectionOf(p: Pc): Section {
    if WantsTable(p) then InTable
    else if WantsPool(p) then AtPool
    else if InsidePool(p) then InPool
    else Outside
  }

  function JobOf(p: Pc): Job {
    match p
    case TxInsert(id, _) => Inserting(id)
    case WriteCall(id, _) => Writing(id)
    case WriteAck(id) => Writing(id)
    case Discard(id) => Discarding(id)
    case FinCall(id, commit) => Finishing(id, if commit then ByCommit else ByRollback)
    case Push(c, OfLoan(_, _)) => Pushing(c)
    case Push(c, OfTx(id, _)) => PushingTx(id, c)
    case Drop(c, OfTx(id, _)) => DroppingTx(id, c)
    case _ => Nothing
  }

  function RoleOf(p: Pc): Role {
    Role(SectionOf(p), Holds(p), Borrowed(p), p.Drop?, Owes(p), Refers(p), HasPermit(p), HasSlot(p), JobOf(p))
  }

  type Roles = map<Tid, Role>

  function RolesOf(s: State): Roles { map t | t in s.pc :: RoleOf(s.pc[t]) }

  predicate WithPermit(r: Role) { r.permit }

  predicate WithSlot(r: Role) { r.slot }

  type Txs = map<Id, Tx>
  type Work = map<Conn, seq<Write>>

  /** What a thread's job asks of the shared data. */
  ghost predicate JobOk(txs: Txs, staged: Work, t: Tid, job: Job) {
    match job
    case Nothing => true
    case Inserting(id) => id in txs && txs[id].stage == Fresh(t)
    case Writing(id) => id in txs && (txs[id].stage.Live? || txs[id].stage.Detached?)
    case Discarding(id) => id in txs && (txs[id].stage.Live? || txs[id].stage.Detached?)
    case Finishing(id, why) =>
      id in txs && txs[id].stage == Detached(t, why) && StagedOn(staged, txs[id].conn) == txs[id].executed
    case Pushing(c) => StagedOn(staged, c) == []
    case PushingTx(id, c) => id in txs && c == txs[id].conn && StagedOn(staged, c) == []
    case DroppingTx(id, c) => id in txs && c == txs[id].conn
  }

  ghost predicate KnownIds(ids: set<Id>, r: Role) {
    && (r.holds.Some? ==> r.holds.value in ids)
    && (forall id | id in r.refers :: id in ids)
  }

  /** Jobs on a transaction are done under its lock, and the parts of a role agree. */
  predicate WellFormed(r: Role) {
    && (r.slot ==> r.permit)
    && match r.job
       case Nothing => true
       case Inserting(_) => r.holds == None
       case Writing(id) => r.holds == Some(id)
       case Discarding(id) => r.holds == Some(id)
       case Finishing(id, _) => r.holds == Some(id) && id in r.owes
       case Pushing(c) => c in r.borrowed
       case PushingTx(id, _) => r.holds == Some(id) && id in r.owes
       case DroppingTx(id, _) => r.holds == Some(id) && id in r.owes
  }

  /** References point at objects that exist. */
  ghost predicate InvIds(table: set<Id>, ids: set<Id>, r: Roles) {
    && table <= ids
    && (forall t | t in r :: KnownIds(ids, r[t]) && WellFormed(r[t]))
  }

  /** Every thread finds the data of its job in the condition it left them in. */
  ghost predicate InvJobs(txs: Txs, staged: Work, r: Roles) {
    forall t | t in r :: JobOk(txs, staged, t, r[t].job)
  }

  /** The holder of a transaction lock is inside the block that the lock guards. */
  ghost predicate InvTxLocks(txLock: map<Id, Tid>, r: Roles) {
    && (forall t | t in r && r[t].holds.Some? :: r[t].holds.value in txLock && txLock[r[t].holds.value] == t)
    && (forall id | id in txLock :: txLock[id] in r && r[txLock[id]].holds == Some(id))
  }

  /** So is the holder of the table lock or of the pool lock. */
  ghost predicate InvShortLocks(tableLock: Option<Tid>, poolLock: Option<Tid>, r: Roles) {
    && (tableLock.Some? ==> tableLock.value in r && r[tableLock.value].section == InTable)
    && (poolLock.Some? ==> poolLock.value in r && r[poolLock.value].section in {AtPool, InPool})
    && (forall t | t in r && r[t].section == InPool :: poolLock == Some(t))
  }

  /** `place` is exact about the idle list and the borrowing threads ... */
  ghost predicate InvPlaces(idle: seq<Conn>, place: map<Conn, Place>, r: Roles) {
    && NoDup(idle)
    && (forall c :: c in idle <==> c in place && place[c] == AtIdle)
    && (forall t | t in r :: NoDup(r[t].borrowed))
    && (forall t, c | t in r && c in r[t].borrowed :: c in place && place[c] == AtThread(t))
    && (forall c | c in place && place[c].AtThread? :: place[c].t in r && c in r[place[c].t].borrowed)
  }

  /** ... and about the unfinished transactions. */
  ghost predicate InvTxPlaces(txs: Txs, place: map<Conn, Place>) {
    && (forall id | id in txs && Unfinished(txs[id]) ::
          txs[id].conn in place && place[txs[id].conn] == AtTx(id))
    && (forall c | c in place && place[c].AtTx? ::
          place[c].id in txs && Unfinished(txs[place[c].id]) && txs[place[c].id].conn == c)
  }

  /** The life of a transaction agrees with the table and with the threads. */
  ghost predicate InvStages(table: set<Id>, txs: Txs, r: Roles) {
    && (forall id | id in txs :: id in table <==> txs[id].stage.Live?)
    && (forall id | id in txs && txs[id].stage.Fresh? ::
          txs[id].stage.maker in r && r[txs[id].stage.maker].job == Inserting(id))
    && (forall t | t in r :: NoDup(r[t].owes))
    && (forall t, id | t in r && id in r[t].owes ::
          id in txs && txs[id].stage.Detached? && txs[id].stage.remover == t)
    && (forall id | id in txs && txs[id].stage.Detached? ::
          txs[id].stage.remover in r && id in r[txs[id].stage.remover].owes)
  }

  /** Permits are conserved, and connections never outnumber `pool_size`. */
  ghost predicate InvCounts(size: nat, permits: int, idle: seq<Conn>, txs: Txs, r: Roles) {
    && permits >= 0
    && permits + Count(r, WithPermit) + Count(txs, Unfinished) == size
    && |idle| + Count(r, WithSlot) + Count(txs, Unfinished) <= size
  }

  /** The lock owner of `id` had a failure and is about to discard the transaction. */
  predicate Spoiled(txLock: map<Id, Tid>, r: Roles, id: Id) {
    id in txLock && txLock[id] in r && r[txLock[id]].job == Discarding(id)
  }

  /** No connection that somebody else could get has staged work. */
  ghost predicate InvClean(idle: seq<Conn>, staged: Work, r: Roles) {
    && (forall c | c in idle :: StagedOn(staged, c) == [])
    && (forall t, c | t in r && !r[t].dirty && c in r[t].borrowed :: StagedOn(staged, c) == [])
  }

  predicate Open(x: Tx) { x.stage.Fresh? || x.stage.Live? }

  /** A transaction that can still be committed has staged exactly what it executed. */
  ghost predicate InvWork(txs: Txs, txLock: map<Id, Tid>, staged: Work, r: Roles) {
    forall id | id in txs && Open(txs[id]) && !Spoiled(txLock, r, id) ::
      StagedOn(staged, txs[id].conn) == txs[id].executed
  }

  ghost predicate InvOver(s: State, r: Roles) {
    && InvIds(s.table, s.txs.Keys, r)
    && InvJobs(s.txs, s.staged, r)
    && InvTxLocks(s.txLock, r)
    && InvShortLocks(s.tableLock, s.poolLock, r)
    && InvPlaces(s.idle, s.place, r)
    && InvTxPlaces(s.txs, s.place)
    && InvStages(s.table, s.txs, r)
    && InvCounts(s.size, s.permits, s.idle, s.txs, r)
    && InvClean(s.idle, s.staged, r)
    && InvWork(s.txs, s.txLock, s.staged, r)
  }

  ghost predicate Inv(s: State) { InvOver(s, RolesOf(s)) }
}
