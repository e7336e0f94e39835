/** The atomic steps of the threads. `Next` is a function of the state, the thread that
    moves and a `Choice`, which stands for everything the code does not decide: outcomes
    of RFCs, pings and opens, policy and validation results, fresh identifiers. */
module ProtocolSteps {
  import opened Common
  import opened ProtocolState

  /** What a step shows to an observer. */
  datatype Event =
    | Silent
    | Wrote(w: Write)                          // a write function returned
    | Removed(ids: set<Id>, why: Reason)       // taken out of the table
    | Committed(id: Id)                        // BAPI_TRANSACTION_COMMIT returned
    | CommitFailed(id: Id, applied: bool)      // it raised; SAP may have applied it
    | Released(id: Id, reusable: bool)         // the transaction's connection was given back
    | Refused(id: Id)                          // TransactionNotFoundError

  /** `ok`: the call in progress returns rather than raises; for `Prepare`, the request is
      authorised and valid. `fits`: the result is within the limits. `applied`: SAP applied
      a commit that raised. `left`: the staged work after an RFC that raised. */
  datatype Choice = Choice(
    start: Pc, ok: bool, fits: bool, applied: bool,
    freshId: Id, freshConn: Conn, ids: seq<Id>, left: seq<Write>)

  /** The first program counters of the public methods. The cutoff of a sweep is computed
      before its first lock. */
  predicate CanStart(s: State, p: Pc) {
    match p
    case SweepTake(_, cutoff) => cutoff == s.now - s.ttl
    case Prepare(goal) => goal.GRead?
    case CkWait(want) => want == ForCall(Final)
    case CloseTake => true
    case DrainTake => true
    case _ => false
  }

  // ---- when a thread can move ----

  /** No other thread holds the lock that the next statement needs. */
  predicate LockFree(s: State, t: Tid)
    requires t in s.pc
  {
    var p := s.pc[t];
    && (WantsTable(p) ==> s.tableLock == None || s.tableLock == Some(t))
    && (WantsPool(p) ==> s.poolLock == None || s.poolLock == Some(t))
    && (WaitsFor(p).Some? ==> WaitsFor(p).value !in s.txLock)
  }

  /** Every transaction the thread refers to is an object that exists. */
  ghost predicate Known(s: State, p: Pc) {
    && (Holds(p).Some? ==> Holds(p).value in s.txs)
    && (forall id | id in Owes(p) :: id in s.txs)
    && (forall id | id in Refers(p) :: id in s.txs)
  }

  ghost predicate Enumerates(ids: seq<Id>, table: set<Id>) {
    NoDup(ids) && forall id :: id in ids <==> id in table
  }

  /** The choices are possible: fresh names are fresh, a copy of the table is a copy. */
  ghost predicate Possible(s: State, p: Pc, ch: Choice) {
    && (p.Idle? ==> CanStart(s, ch.start))
    && (p.SweepTake? || p.CloseTake? ==> Enumerates(ch.ids, s.table))
    && ch.freshId !in s.txs
    && ch.freshConn !in s.place
  }

  ghost predicate Enabled(s: State, t: Tid, ch: Choice) {
    t in s.pc && Known(s, s.pc[t]) && LockFree(s, t) && Possible(s, s.pc[t], ch)
  }

  // ---- the statements ----

  function Goto(s: State, t: Tid, p: Pc): State { s.(pc := s.pc[t := p]) }

  function UnlockTable(s: State): State { s.(tableLock := None) }

  function UnlockPool(s: State): State { s.(poolLock := None) }

  function LockTx(s: State, t: Tid, id: Id, p: Pc): State {
    Goto(s.(txLock := s.txLock[id := t]), t, p)
  }

  function SetStage(s: State, id: Id, stage: Stage): State
    requires id in s.txs
  {
    s.(txs := s.txs[id := s.txs[id].(stage := stage)])
  }

  function SetStaged(s: State, c: Conn, work: seq<Write>): State {
    s.(staged := s.staged[c := work])
  }

  function StagedOn(staged: map<Conn, seq<Write>>, c: Conn): seq<Write> {
    if c in staged then staged[c] else []
  }

  /** `del self._transactions[id]` by thread `t`, inside the table lock. */
  function Remove(s: State, t: Tid, id: Id, why: Reason): State
    requires id in s.txs
  {
    UnlockTable(SetStage(s.(table := s.table - {id}), id, Detached(t, why)))
  }

  /** checkout() returned `c`. A first write wraps it in a new transaction object. */
  function Got(s: State, t: Tid, want: Want, c: Conn, ch: Choice): State {
    match want
    case ForCall(loan) => Goto(s.(place := s.place[c := AtThread(t)]), t, ReadCall(loan, c))
    case ForWrite(data) =>
      var x := Tx(c, s.now, Fresh(t), []);
      Goto(s.(place := s.place[c := AtTx(ch.freshId)], txs := s.txs[ch.freshId := x]),
           t, TxInsert(ch.freshId, data))
  }

  /** The loop in `checkout`, with the pool lock held. */
  function Scan(s: State, t: Tid, want: Want): State {
    if s.idle == [] then
      Goto(UnlockPool(s), t, CkOpen(want))
    else
      var c := s.idle[|s.idle| - 1];
      Goto(s.(idle := s.idle[..|s.idle| - 1], place := s.place[c := AtThread(t)]), t, CkPing(want, c))
  }

  /** `call`: catalog lookups first, then the call on a borrowed connection. */
  function ReadNext(lookups: nat): Pc {
    if lookups > 0 then CkWait(ForCall(Lookup(GRead(lookups - 1)))) else CkWait(ForCall(Final))
  }

  /** `call_transactional`: lookups, then an existing transaction or a new connection. */
  function WriteNext(lookups: nat, target: Option<Id>, data: nat): Pc {
    if lookups > 0 then CkWait(ForCall(Lookup(GWrite(lookups - 1, target, data))))
    else if target.Some? then TxLookup(target.value, data)
    else CkWait(ForWrite(data))
  }

  function AfterPrepare(goal: Goal): Pc {
    match goal
    case GRead(n) => ReadNext(n)
    case GWrite(n, target, data) => WriteNext(n, target, data)
    case GFinish(id, commit) => FinLookup(id, commit)
  }

  function AfterSweepPc(goal: Goal): Pc {
    match goal
    case GFinish(id, commit) => FinLookup(id, commit)
    case _ => Prepare(goal)
  }

  function Resume(a: After): Pc {
    match a
    case AfterCall => Idle
    case AfterSweep(goal, cutoff, rest) => SweepHead(goal, cutoff, rest)
    case AfterClose(rest) => CloseNext(rest)
  }

  /** The owner's connection is out of its hands: a transaction is over. */
  function Finished(s: State, owner: Owner): State
    requires owner.OfTx? ==> owner.id in s.txs
  {
    if owner.OfLoan? then s
    else
      var stage := s.txs[owner.id].stage;
      SetStage(s, owner.id, if stage.Detached? then Done(stage.why) else stage)
  }

  function ReleasedBy(owner: Owner, reusable: bool): Event {
    if owner.OfTx? then Released(owner.id, reusable) else Silent
  }

  /** `self._close_quietly(conn)`: SAP drops what the connection had staged. */
  function CloseConn(s: State, c: Conn): State {
    s.(place := s.place[c := Closed], staged := s.staged[c := []])
  }

  /** The rollback RFC of `id` ends: the connection is pushed back or dropped. */
  function RollbackEnds(s: State, t: Tid, id: Id, after: After, ch: Choice): (r: (State, Event))
    requires id in s.txs
  {
    var c := s.txs[id].conn;
    if ch.ok then (Goto(SetStaged(s, c, []), t, Push(c, OfTx(id, after))), Silent)
    else (Goto(SetStaged(s, c, ch.left), t, Drop(c, OfTx(id, after))), Silent)
  }

  function CommitEnds(s: State, t: Tid, id: Id, ch: Choice): (State, Event)
    requires id in s.txs
  {
    var c := s.txs[id].conn;
    var work := StagedOn(s.staged, c);
    if ch.ok then
      (Goto(SetStaged(s.(durable := s.durable + [work]), c, []), t, Push(c, OfTx(id, AfterCall))),
       Committed(id))
    else
      (Goto(SetStaged(if ch.applied then s.(durable := s.durable + [work]) else s, c, ch.left),
            t, Drop(c, OfTx(id, AfterCall))),
       CommitFailed(id, ch.applied))
  }

  /** A write function ends; its result may still exceed the limits. */
  function WriteEnds(s: State, t: Tid, id: Id, data: nat, ch: Choice): (State, Event)
    requires id in s.txs
  {
    var x := s.txs[id];
    var w := Write(id, data);
    if ch.ok then
      (Goto(SetStaged(s, x.conn, StagedOn(s.staged, x.conn) + [w])
              .(txs := s.txs[id := x.(executed := x.executed + [w])]),
            t, if ch.fits then WriteAck(id) else Discard(id)),
       Wrote(w))
    else
      (Goto(SetStaged(s, x.conn, ch.left), t, Discard(id)), Silent)
  }

  // ---- inside `with self._transactions_lock`: one statement ends the block ----

  predicate Looking(p: Pc) {
    p.SweepTake? || p.TxInsert? || p.TxLookup? || p.WriteCheck? || p.FinLookup?
  }

  function LookStep(s: State, t: Tid, ch: Choice): (State, Event)
    requires t in s.pc && Looking(s.pc[t]) && Known(s, s.pc[t])
  {
    match s.pc[t]
    case SweepTake(goal, cutoff) =>
      (Goto(UnlockTable(s), t, SweepHead(goal, cutoff, ch.ids)), Silent)
    case TxInsert(id, data) =>
      (Goto(UnlockTable(SetStage(s.(table := s.table + {id}), id, Live)), t, WriteWait(id, data)), Silent)
    case TxLookup(id, data) =>
      if id in s.table then (Goto(UnlockTable(s), t, WriteWait(id, data)), Silent)
      else (Goto(UnlockTable(s), t, Idle), Refused(id))
    case WriteCheck(id, data) =>
      if id in s.table then (Goto(UnlockTable(s), t, WriteCall(id, data)), Silent)
      else (Goto(UnlockTable(s), t, TxUnlock(id, AfterCall)), Refused(id))
    case FinLookup(id, commit) =>
      if id in s.table then (Goto(UnlockTable(s), t, FinWait(id, commit)), Silent)
      else (Goto(UnlockTable(s), t, Idle), Refused(id))
  }

  predicate Removing(p: Pc) { p.SweepLocked? || p.Discard? || p.FinRemove? || p.CloseTake? }

  /** `close()`: every transaction in the table is detached by `t`. */
  function Shut(table: set<Id>, txs: map<Id, Tx>, t: Tid): map<Id, Tx> {
    map id | id in txs :: if id in table then txs[id].(stage := Detached(t, ByShutdown)) else txs[id]
  }

  function RemoveStep(s: State, t: Tid, ch: Choice): (State, Event)
    requires t in s.pc && Removing(s.pc[t]) && Known(s, s.pc[t])
  {
    match s.pc[t]
    case SweepLocked(goal, cutoff, id, rest) =>
      if id in s.table && s.txs[id].lastUsed < cutoff then
        (Goto(Remove(s, t, id, ByExpiry), t, SweepCall(goal, cutoff, id, rest)), Removed({id}, ByExpiry))
      else
        (Goto(UnlockTable(s), t, TxUnlock(id, AfterSweep(goal, cutoff, rest))), Silent)
    case Discard(id) =>
      if id in s.table then
        (Goto(Remove(s, t, id, ByDiscard), t, Drop(s.txs[id].conn, OfTx(id, AfterCall))),
         Removed({id}, ByDiscard))
      else (Goto(UnlockTable(s), t, TxUnlock(id, AfterCall)), Silent)
    case FinRemove(id, commit) =>
      var why := if commit then ByCommit else ByRollback;
      if id in s.table then
        (Goto(Remove(s, t, id, why), t, FinCall(id, commit)), Removed({id}, why))
      else (Goto(UnlockTable(s), t, TxUnlock(id, AfterCall)), Refused(id))
    case CloseTake =>
      (Goto(UnlockTable(s.(table := {}, txs := Shut(s.table, s.txs, t))), t, CloseNext(ch.ids)),
       Removed(s.table, ByShutdown))
  }

  // ---- inside `with self._lock` of the pool ----

  function Drained(idle: seq<Conn>, place: map<Conn, Place>, t: Tid): map<Conn, Place> {
    map c | c in place :: if c in idle then AtThread(t) else place[c]
  }

  function PoolStep(s: State, t: Tid): (State, Event)
    requires t in s.pc && WantsPool(s.pc[t]) && Known(s, s.pc[t])
  {
    match s.pc[t]
    case CkScan(want) => (Scan(s, t, want), Silent)
    case Push(c, owner) =>
      (Goto(UnlockPool(Finished(s.(idle := s.idle + [c], place := s.place[c := AtIdle]), owner)),
            t, Post(owner)),
       ReleasedBy(owner, true))
    case DrainTake =>
      (Goto(UnlockPool(s.(idle := [], place := Drained(s.idle, s.place, t))), t, DrainClose(s.idle)), Silent)
  }

  // ---- everything else ----

  predicate Sweeping(p: Pc) { p.SweepHead? || p.SweepTry? || p.SweepCall? }

  function SweepStep(s: State, t: Tid, ch: Choice): (State, Event)
    requires t in s.pc && Sweeping(s.pc[t]) && Known(s, s.pc[t])
  {
    match s.pc[t]
    case SweepHead(goal, cutoff, todo) =>
      if todo == [] then (Goto(s, t, AfterSweepPc(goal)), Silent)
      else if s.txs[todo[0]].lastUsed >= cutoff then
        (Goto(s, t, SweepHead(goal, cutoff, todo[1..])), Silent)
      else (Goto(s, t, SweepTry(goal, cutoff, todo[0], todo[1..])), Silent)
    case SweepTry(goal, cutoff, id, rest) =>
      if id in s.txLock then (Goto(s, t, SweepHead(goal, cutoff, rest)), Silent)
      else (LockTx(s, t, id, SweepLocked(goal, cutoff, id, rest)), Silent)
    case SweepCall(goal, cutoff, id, rest) => RollbackEnds(s, t, id, AfterSweep(goal, cutoff, rest), ch)
  }

  predicate CheckingOut(p: Pc) { p.CkWait? || p.CkPing? || p.CkDead? || p.CkOpen? || p.CkFail? }

  function CheckoutStep(s: State, t: Tid, ch: Choice): (State, Event)
    requires t in s.pc && CheckingOut(s.pc[t])
  {
    match s.pc[t]
    case CkWait(want) =>
      if s.permits > 0 then (Goto(s.(permits := s.permits - 1), t, CkScan(want)), Silent)
      else (Goto(s, t, Idle), Silent)  // SAPPoolTimeoutError
    case CkPing(want, c) =>
      if ch.ok then (Got(UnlockPool(s), t, want, c, ch), Silent)
      else (Goto(s, t, CkDead(want, c)), Silent)
    case CkDead(want, c) => (Goto(CloseConn(s, c), t, CkScan(want)), Silent)
    case CkOpen(want) =>
      if ch.ok then (Got(SetStaged(s, ch.freshConn, []), t, want, ch.freshConn, ch), Silent)
      else (Goto(s, t, CkFail), Silent)
    case CkFail => (Goto(s.(permits := s.permits + 1), t, Idle), Silent)
  }

  predicate Calling(p: Pc) { p.Idle? || p.Prepare? || p.ReadCall? }

  function CallStep(s: State, t: Tid, ch: Choice): (State, Event)
    requires t in s.pc && Calling(s.pc[t])
  {
    match s.pc[t]
    case Idle => (Goto(s, t, ch.start), Silent)
    case Prepare(goal) => (Goto(s, t, if ch.ok then AfterPrepare(goal) else Idle), Silent)
    case ReadCall(loan, c) =>
      if ch.ok then (Goto(s, t, Push(c, OfLoan(loan, true))), Silent)
      else (Goto(SetStaged(s, c, ch.left), t, Drop(c, OfLoan(loan, false))), Silent)
  }

  predicate Working(p: Pc) { p.WriteWait? || p.WriteCall? || p.WriteAck? || p.FinWait? || p.FinCall? }

  function WorkStep(s: State, t: Tid, ch: Choice): (State, Event)
    requires t in s.pc && Working(s.pc[t]) && Known(s, s.pc[t])
  {
    match s.pc[t]
    case WriteWait(id, data) => (LockTx(s, t, id, WriteCheck(id, data)), Silent)
    case WriteCall(id, data) => WriteEnds(s, t, id, data, ch)
    case WriteAck(id) =>
      (Goto(s.(txs := s.txs[id := s.txs[id].(lastUsed := s.now)]), t, TxUnlock(id, AfterCall)), Silent)
    case FinWait(id, commit) => (LockTx(s, t, id, FinRemove(id, commit)), Silent)
    case FinCall(id, commit) =>
      if commit then CommitEnds(s, t, id, ch) else RollbackEnds(s, t, id, AfterCall, ch)
  }

  predicate Releasing(p: Pc) { p.Drop? || p.Post? || p.TxUnlock? }

  function AfterPost(owner: Owner): Pc {
    match owner
    case OfTx(id, after) => TxUnlock(id, after)
    case OfLoan(loan, ok) => if loan.Lookup? && ok then Prepare(loan.goal) else Idle
  }

  function ReleaseStep(s: State, t: Tid): (State, Event)
    requires t in s.pc && Releasing(s.pc[t]) && Known(s, s.pc[t])
  {
    match s.pc[t]
    case Drop(c, owner) =>
      (Goto(Finished(CloseConn(s, c), owner), t, Post(owner)), ReleasedBy(owner, false))
    case Post(owner) => (Goto(s.(permits := s.permits + 1), t, AfterPost(owner)), Silent)
    case TxUnlock(id, after) => (Goto(s.(txLock := s.txLock - {id}), t, Resume(after)), Silent)
  }

  predicate ShuttingDown(p: Pc) { p.CloseNext? || p.CloseCall? || p.DrainClose? }

  function ShutdownStep(s: State, t: Tid, ch: Choice): (State, Event)
    requires t in s.pc && ShuttingDown(s.pc[t]) && Known(s, s.pc[t])
  {
    match s.pc[t]
    case CloseNext(todo) =>
      if todo == [] then (Goto(s, t, Idle), Silent)
      else (LockTx(s, t, todo[0], CloseCall(todo[0], todo[1..])), Silent)
    case CloseCall(id, rest) => RollbackEnds(s, t, id, AfterClose(rest), ch)
    case DrainClose(cs) =>
      if cs == [] then (Goto(s, t, Idle), Silent)
      else (Goto(CloseConn(s, cs[0]), t, DrainClose(cs[1..])), Silent)
  }

  /** One step of thread `t`: it takes the lock its next statement needs, or executes it. */
  function Next(s: State, t: Tid, ch: Choice): (State, Event)
    requires t in s.pc && Known(s, s.pc[t])
  {
    var p := s.pc[t];
    if WantsTable(p) && s.tableLock != Some(t) then (s.(tableLock := Some(t)), Silent)
    else if WantsPool(p) && s.poolLock != Some(t) then (s.(poolLock := Some(t)), Silent)
    else if Looking(p) then LookStep(s, t, ch)
    else if Removing(p) then RemoveStep(s, t, ch)
    else if WantsPool(p) then PoolStep(s, t)
    else if Sweeping(p) then SweepStep(s, t, ch)
    else if CheckingOut(p) then CheckoutStep(s, t, ch)
    else if Calling(p) then CallStep(s, t, ch)
    else if Working(p) then WorkStep(s, t, ch)
    else if Releasing(p) then ReleaseStep(s, t)
    else ShutdownStep(s, t, ch)
  }

  // ---- runs ----

  datatype Label = Move(t: Tid, ch: Choice) | Tick(delta: nat)

  ghost predicate Valid(s: State, l: Label) {
    l.Move? ==> Enabled(s, l.t, l.ch)
  }

  function StepOf(s: State, l: Label): (State, Event)
    requires l.Move? ==> l.t in s.pc && Known(s, s.pc[l.t])
  {
    match l
    case Move(t, ch) => Next(s, t, ch)
    case Tick(delta) => (s.(now := s.now + delta), Silent)
  }

  /** A fresh server: nothing opened, nobody inside. */
  ghost predicate Init(s: State) {
    && s.permits == s.size
    && s.idle == [] && s.table == {} && s.txs == map[] && s.txLock == map[]
    && s.staged == map[] && s.durable == [] && s.place == map[]
    && s.poolLock == None && s.tableLock == None
    && forall t | t in s.pc :: s.pc[t] == Idle
  }

  ghost predicate IsRun(ss: seq<State>, ls: seq<Label>, es: seq<Event>) {
    && |ss| == |ls| + 1 == |es| + 1
    && Init(ss[0])
    && forall i | 0 <= i < |ls| :: Valid(ss[i], ls[i]) && StepOf(ss[i], ls[i]) == (ss[i + 1], es[i])
  }
}
