/** The shared state of ExecutionInvoker and ConnectionPool, the program counters of
    the threads inside them, and the SAP backend behind the connections.

    Every lock, semaphore and RFC boundary of the source is a program counter. An
    `_ActiveTransaction` object is identified with its transaction ID: IDs are fresh,
    so `self._transactions.get(id) is active` is membership of the ID in the table. */
module ProtocolState {
  import opened Common

  type Tid = nat
  type Id = nat
  type Conn = nat

  /** One executed write function. The tag records which transaction asked for it;
      no step reads it. */
  datatype Write = Write(id: Id, data: nat)

  /** What a public method goes on to do once its expiry sweep is over. `lookups` is the
      number of RFCs the catalog still has to make for the interface (0: cached). */
  datatype Goal =
    | GRead(lookups: nat)
    | GWrite(lookups: nat, target: Option<Id>, data: nat)
    | GFinish(id: Id, commit: bool)

  /** Why a connection is borrowed for one call: the read itself, or a catalog lookup. */
  datatype Loan = Final | Lookup(goal: Goal)

  /** Who called `checkout`: a one-call borrower or the first write of a transaction. */
  datatype Want = ForCall(loan: Loan) | ForWrite(data: nat)

  /** What follows the end of a `with active.lock` block. */
  datatype After =
    | AfterCall
    | AfterSweep(goal: Goal, cutoff: int, rest: seq<Id>)
    | AfterClose(rest: seq<Id>)

  /** On whose behalf `release` runs. */
  datatype Owner = OfLoan(loan: Loan, ok: bool) | OfTx(id: Id, after: After)

  datatype Pc =
    | Idle
    // _expire_transactions
    | SweepTake(goal: Goal, cutoff: int)
    | SweepHead(goal: Goal, cutoff: int, todo: seq<Id>)
    | SweepTry(goal: Goal, cutoff: int, id: Id, rest: seq<Id>)
    | SweepLocked(goal: Goal, cutoff: int, id: Id, rest: seq<Id>)
    | SweepCall(goal: Goal, cutoff: int, id: Id, rest: seq<Id>)
    // authorize, get_interface, build_call_kwargs
    | Prepare(goal: Goal)
    // ConnectionPool.checkout
    | CkWait(want: Want)
    | CkScan(want: Want)
    | CkPing(want: Want, conn: Conn)
    | CkDead(want: Want, conn: Conn)
    | CkOpen(want: Want)
    | CkFail
    // one call on a borrowed connection
    | ReadCall(loan: Loan, conn: Conn)
    // call_transactional
    | TxInsert(id: Id, data: nat)
    | TxLookup(id: Id, data: nat)
    | WriteWait(id: Id, data: nat)
    | WriteCheck(id: Id, data: nat)
    | WriteCall(id: Id, data: nat)
    | WriteAck(id: Id)
    | Discard(id: Id)
    // _finish_transaction
    | FinLookup(id: Id, commit: bool)
    | FinWait(id: Id, commit: bool)
    | FinRemove(id: Id, commit: bool)
    | FinCall(id: Id, commit: bool)
    // ConnectionPool.release, then the end of the `with active.lock` block
    | Push(conn: Conn, owner: Owner)
    | Drop(conn: Conn, owner: Owner)
    | Post(owner: Owner)
    | TxUnlock(id: Id, after: After)
    // ExecutionInvoker.close
    | CloseTake
    | CloseNext(todo: seq<Id>)
    | CloseCall(id: Id, rest: seq<Id>)
    // ConnectionPool.close_all
    | DrainTake
    | DrainClose(conns: seq<Conn>)

  datatype Reason = ByCommit | ByRollback | ByExpiry | ByDiscard | ByShutdown

  /** Auxiliary: the life of a transaction. `Detached` means removed from the table by
      one thread that has yet to give the connection back. */
  datatype Stage =
    | Fresh(maker: Tid)
    | Live
    | Detached(remover: Tid, why: Reason)
    | Done(why: Reason)

  /** Auxiliary: where a connection that was once opened is now. */
  datatype Place = AtIdle | AtThread(t: Tid) | AtTx(id: Id) | Closed

  /** `executed` and `stage` are auxiliary: the writes whose RFC returned, and the life
      cycle. The source object holds `conn`, `lastUsed` and the lock. */
  datatype Tx = Tx(conn: Conn, lastUsed: int, stage: Stage, executed: seq<Write>)

  datatype State = State(
    size: nat,                       // settings.pool_size
    ttl: int,                        // transaction_ttl_seconds
    now: int,                        // time.monotonic()
    pc: map<Tid, Pc>,
    // ConnectionPool
    permits: int,                    // Semaphore: Python's counter has no upper bound
    idle: seq<Conn>,
    poolLock: Option<Tid>,
    // ExecutionInvoker
    table: set<Id>,
    txs: map<Id, Tx>,                // every transaction object made so far
    tableLock: Option<Tid>,
    txLock: map<Id, Tid>,            // the per-transaction locks that are held
    // SAP
    staged: map<Conn, seq<Write>>,   // uncommitted work of each connection
    durable: seq<seq<Write>>,        // what each commit made permanent
    // auxiliary
    place: map<Conn, Place>
  )

  // ---- what a program counter says about the thread that is there ----

  /** The next statement is inside `with self._transactions_lock`. */
  predicate WantsTable(p: Pc) {
    p.SweepTake? || p.SweepLocked? || p.TxInsert? || p.TxLookup? || p.WriteCheck? || p.Discard? ||
    p.FinLookup? || p.FinRemove? || p.CloseTake?
  }

  /** The next statement is inside `with self._lock` of the pool. */
  predicate WantsPool(p: Pc) { p.CkScan? || p.Push? || p.DrainTake? }

  /** The thread is in the middle of the pool's critical section. */
  predicate InsidePool(p: Pc) { p.CkPing? || p.CkDead? }

  /** The transaction lock the thread blocks on, if it is at a blocking acquire. */
  function WaitsFor(p: Pc): Option<Id> {
    match p
    case WriteWait(id, _) => Some(id)
    case FinWait(id, _) => Some(id)
    case CloseNext(todo) => if todo == [] then None else Some(todo[0])
    case _ => None
  }

  /** The transaction lock the thread holds. */
  function Holds(p: Pc): Option<Id> {
    match p
    case SweepLocked(_, _, id, _) => Some(id)
    case SweepCall(_, _, id, _) => Some(id)
    case WriteCheck(id, _) => Some(id)
    case WriteCall(id, _) => Some(id)
    case WriteAck(id) => Some(id)
    case Discard(id) => Some(id)
    case FinRemove(id, _) => Some(id)
    case FinCall(id, _) => Some(id)
    case Push(_, OfTx(id, _)) => Some(id)
    case Drop(_, OfTx(id, _)) => Some(id)
    case Post(OfTx(id, _)) => Some(id)
    case TxUnlock(id, _) => Some(id)
    case CloseCall(id, _) => Some(id)
    case _ => None
  }

  /** Connections the thread holds itself, not through a transaction. */
  function Borrowed(p: Pc): seq<Conn> {
    match p
    case CkPing(_, c) => [c]
    case CkDead(_, c) => [c]
    case ReadCall(_, c) => [c]
    case Push(c, OfLoan(_, _)) => [c]
    case Drop(c, OfLoan(_, _)) => [c]
    case DrainClose(cs) => cs
    case _ => []
  }

  function Rest(a: After): seq<Id> {
    if a.AfterClose? then a.rest else []
  }

  /** Transactions this thread took out of the table and whose connection it must still
      release. */
  function Owes(p: Pc): seq<Id> {
    match p
    case SweepCall(_, _, id, _) => [id]
    case FinCall(id, _) => [id]
    case Push(_, OfTx(id, a)) => [id] + Rest(a)
    case Drop(_, OfTx(id, a)) => [id] + Rest(a)
    case Post(OfTx(_, a)) => Rest(a)
    case TxUnlock(_, a) => Rest(a)
    case CloseNext(todo) => todo
    case CloseCall(id, rest) => [id] + rest
    case _ => []
  }

  /** Other transactions the thread has a reference to. */
  function Refers(p: Pc): seq<Id> {
    match p
    case SweepHead(_, _, todo) => todo
    case SweepTry(_, _, id, rest) => [id] + rest
    case SweepLocked(_, _, _, rest) => rest
    case SweepCall(_, _, _, rest) => rest
    case Push(_, OfTx(_, AfterSweep(_, _, rest))) => rest
    case Drop(_, OfTx(_, AfterSweep(_, _, rest))) => rest
    case Post(OfTx(_, AfterSweep(_, _, rest))) => rest
    case TxUnlock(_, AfterSweep(_, _, rest)) => rest
    case TxInsert(id, _) => [id]
    case WriteWait(id, _) => [id]
    case FinWait(id, _) => [id]
    case _ => []
  }

  /** The thread owns a semaphore permit that no transaction accounts for. */
  predicate HasPermit(p: Pc) {
    p.CkScan? || p.CkPing? || p.CkDead? || p.CkOpen? || p.CkFail? || p.ReadCall? || p.Post? ||
    (p.Push? && p.owner.OfLoan?) || (p.Drop? && p.owner.OfLoan?)
  }

  /** ... and has a connection, or is opening one, under that permit. */
  predicate HasSlot(p: Pc) {
    p.CkPing? || p.CkDead? || p.CkOpen? || p.ReadCall? ||
    (p.Push? && p.owner.OfLoan?) || (p.Drop? && p.owner.OfLoan?)
  }

  predicate Unfinished(x: Tx) { !x.stage.Done? }

  /** The connection on which the thread has a call in progress. */
  function CallsOn(s: State, t: Tid): Option<Conn>
    requires t in s.pc
  {
    match s.pc[t]
    case CkPing(_, c) => Some(c)
    case CkDead(_, c) => Some(c)
    case ReadCall(_, c) => Some(c)
    case Drop(c, _) => Some(c)
    case DrainClose(cs) => if cs == [] then None else Some(cs[0])
    case WriteCall(id, _) => if id in s.txs then Some(s.txs[id].conn) else None
    case FinCall(id, _) => if id in s.txs then Some(s.txs[id].conn) else None
    case SweepCall(_, _, id, _) => if id in s.txs then Some(s.txs[id].conn) else None
    case CloseCall(id, _) => if id in s.txs then Some(s.txs[id].conn) else None
    case _ => None
  }
}
