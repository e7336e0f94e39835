/** What the invariant means: exclusive use of connections, no inherited work, conserved
    permits, a bounded pool, and what is left when nobody is inside. */
module ProtocolSafety {
  import opened Common
  import opened ProtocolState
  import opened ProtocolSteps
  import opened ProtocolInvariant
  import opened ProtocolPreservation

  // ---- exclusive ownership ----

  /** The transaction under whose lock the thread's call runs, or the connection it borrowed. */
  lemma CallerOwns(s: State, t: Tid, c: Conn)
    requires Inv(s) && t in s.pc && CallsOn(s, t) == Some(c)
    ensures c in s.place
    ensures s.place[c] == AtThread(t) ||
            exists id :: s.place[c] == AtTx(id) && id in s.txs && Holds(s.pc[t]) == Some(id)
  {
    var p := s.pc[t];
    if c in Borrowed(p) {
      OwnConn(s, t, c);
    } else {
      assert Holds(p).Some?;
      var id := Holds(p).value;
      TxCallOwns(s, t, id, c);
    }
  }

  lemma TxCallOwns(s: State, t: Tid, id: Id, c: Conn)
    requires Inv(s) && t in s.pc && CallsOn(s, t) == Some(c) && c !in Borrowed(s.pc[t]) && Holds(s.pc[t]) == Some(id)
    ensures id in s.txs && s.txs[id].conn == c && c in s.place && s.place[c] == AtTx(id)
  {
    hide InvOver;
    OwnJob(s, t);
    if id in Owes(s.pc[t]) {
      OwedIsDetached(s, t, id);
    }
    PinnedPlace(s, id);
  }

  lemma PinnedPlace(s: State, id: Id)
    requires Inv(s)
    ensures id in s.txs && Unfinished(s.txs[id]) ==>
              s.txs[id].conn in s.place && s.place[s.txs[id].conn] == AtTx(id)
  {}

  /** At most one thread is calling on a connection, whoever detached its transaction. */
  lemma OneCallerPerConnection(s: State, t: Tid, u: Tid, c: Conn)
    requires Inv(s) && t in s.pc && u in s.pc
    requires CallsOn(s, t) == CallsOn(s, u) == Some(c)
    ensures t == u
  {
    CallerOwns(s, t, c);
    CallerOwns(s, u, c);
    if s.place[c].AtTx? {
      LockIsExclusive(s, t, u);
    }
  }

  lemma LockIsExclusive(s: State, t: Tid, u: Tid)
    requires Inv(s) && t in s.pc && u in s.pc && Holds(s.pc[t]).Some? && Holds(s.pc[t]) == Holds(s.pc[u])
    ensures t == u
  {
    assert RolesOf(s)[t].holds == Holds(s.pc[t]) && RolesOf(s)[u].holds == Holds(s.pc[u]);
  }

  /** The thread has the connection in its hands. */
  predicate Borrows(s: State, t: Tid, c: Conn) { t in s.pc && c in Borrowed(s.pc[t]) }

  /** An unfinished transaction, live or detached, has the connection. */
  predicate Pins(s: State, id: Id, c: Conn) { id in s.txs && Unfinished(s.txs[id]) && s.txs[id].conn == c }

  /** An open connection is idle, or one thread has it, or one transaction has it: exactly
      one of the three. */
  ghost predicate ExactlyOneHolder(s: State, c: Conn) {
    && (c in s.idle ==> (forall t :: !Borrows(s, t, c)) && (forall id :: !Pins(s, id, c)))
    && (forall t, u :: Borrows(s, t, c) && Borrows(s, u, c) ==> t == u)
    && (forall t, id :: !(Borrows(s, t, c) && Pins(s, id, c)))
    && (forall i, j :: Pins(s, i, c) && Pins(s, j, c) ==> i == j)
    && (c in s.idle || (exists t :: Borrows(s, t, c)) || (exists id :: Pins(s, id, c)))
  }

  lemma BorrowsPlace(s: State, t: Tid, c: Conn)
    requires Inv(s) && Borrows(s, t, c)
    ensures c in s.place && s.place[c] == AtThread(t)
  {
    OwnConn(s, t, c);
  }

  lemma ExclusiveOwnership(s: State, c: Conn)
    requires Inv(s) && c in s.place && s.place[c] != Closed
    ensures ExactlyOneHolder(s, c)
  {
    forall t | Borrows(s, t, c)
      ensures s.place[c] == AtThread(t)
    {
      BorrowsPlace(s, t, c);
    }
    HolderExists(s, c);
  }

  lemma HolderExists(s: State, c: Conn)
    requires Inv(s) && c in s.place && s.place[c] != Closed
    ensures c in s.idle || (exists t :: Borrows(s, t, c)) || (exists id :: Pins(s, id, c))
  {
    match s.place[c]
    case AtIdle =>
    case AtThread(t) =>
      assert c in RolesOf(s)[t].borrowed;
      assert Borrows(s, t, c);
    case AtTx(id) =>
      assert Pins(s, id, c);
  }

  /** A connection that was closed is in nobody's hands. */
  lemma ClosedIsGone(s: State, c: Conn)
    requires Inv(s) && c in s.place && s.place[c] == Closed
    ensures c !in s.idle && (forall t :: !Borrows(s, t, c)) && (forall id :: !Pins(s, id, c))
  {
    forall t | Borrows(s, t, c)
      ensures false
    {
      BorrowsPlace(s, t, c);
    }
  }

  /** A write that runs although its transaction left the table is covered by a shutdown: the
      closing thread has the transaction on its list and has yet to get its lock. */
  function Pending(p: Pc): seq<Id> {
    match p
    case CloseNext(todo) => todo
    case CloseCall(_, rest) => rest
    case Push(_, OfTx(_, a)) => Rest(a)
    case Drop(_, OfTx(_, a)) => Rest(a)
    case Post(OfTx(_, a)) => Rest(a)
    case TxUnlock(_, a) => Rest(a)
    case _ => []
  }

  lemma OwedButNotHeld(p: Pc, id: Id)
    requires id in Owes(p) && Holds(p) != Some(id)
    ensures id in Pending(p)
  {}

  lemma WriteOutlivesShutdown(s: State, t: Tid)
    requires Inv(s) && t in s.pc && (s.pc[t].WriteCall? || s.pc[t].WriteAck? || s.pc[t].Discard?)
    ensures var id := s.pc[t].id;
            id in s.txs &&
            (id in s.table ||
             (s.txs[id].stage.Detached? &&
              var u := s.txs[id].stage.remover; u in s.pc && u != t && id in Pending(s.pc[u])))
  {
    OwnJob(s, t);
    TableIsLive(s);
    var id := s.pc[t].id;
    if s.txs[id].stage.Detached? {
      var u := s.txs[id].stage.remover;
      assert id in RolesOf(s)[u].owes;
      assert id !in Owes(s.pc[t]);
      if Holds(s.pc[u]) == Some(id) {
        LockIsExclusive(s, t, u);
      }
      OwedButNotHeld(s.pc[u], id);
    }
  }

  // ---- staged work ----

  /** Whoever gets a connection gets it without anybody's uncommitted work: idle connections
      and connections borrowed for one call have none, and the connection of a current
      transaction has exactly what that transaction executed, unless a failed write is just
      being discarded. */
  lemma NobodyInheritsWork(s: State, c: Conn)
    requires Inv(s)
    ensures c in s.idle ==> StagedOn(s.staged, c) == []
    ensures forall t, loan | t in s.pc && s.pc[t] == ReadCall(loan, c) :: StagedOn(s.staged, c) == []
    ensures forall id | id in s.table && s.txs[id].conn == c && !(exists t :: t in s.pc && s.pc[t] == Discard(id)) ::
              StagedOn(s.staged, c) == s.txs[id].executed
  {
    forall t, loan | t in s.pc && s.pc[t] == ReadCall(loan, c)
      ensures StagedOn(s.staged, c) == []
    {
      OwnConn(s, t, c);
    }
    forall id | id in s.table && s.txs[id].conn == c && !(exists t :: t in s.pc && s.pc[t] == Discard(id))
      ensures StagedOn(s.staged, c) == s.txs[id].executed
    {
      NotSpoiled(s, id);
    }
  }

  lemma NotSpoiled(s: State, id: Id)
    requires Inv(s) && id in s.table && !(exists t :: t in s.pc && s.pc[t] == Discard(id))
    ensures StagedOn(s.staged, s.txs[id].conn) == s.txs[id].executed
  {
    TableIsLive(s);
    var r := RolesOf(s);
    if Spoiled(s.txLock, r, id) {
      Discards(s.pc[s.txLock[id]], id);
    }
  }

  lemma Discards(p: Pc, id: Id)
    requires RoleOf(p).job == Discarding(id)
    ensures p == Discard(id)
  {}

  // ---- permits and the bound ----

  lemma RoleCount(s: State)
    ensures Count(RolesOf(s), WithPermit) == Count(s.pc, HasPermit)
    ensures Count(RolesOf(s), WithSlot) == Count(s.pc, HasSlot)
  {
    assert Keys(RolesOf(s), WithPermit) == Keys(s.pc, HasPermit);
    assert Keys(RolesOf(s), WithSlot) == Keys(s.pc, HasSlot);
  }

  /** Free permits, permits of threads inside checkout, a borrowed call or release, and
      unfinished transactions always add up to `pool_size`. */
  lemma PermitsAreConserved(s: State)
    requires Inv(s)
    ensures s.permits + Count(s.pc, HasPermit) + Count(s.txs, Unfinished) == s.size
    ensures 0 <= s.permits <= s.size
  {
    RoleCount(s);
  }

  /** Idle connections, connections in use by a thread or being opened, and connections of
      unfinished transactions never outnumber `pool_size`. */
  lemma ConnectionsAreBounded(s: State)
    requires Inv(s)
    ensures |s.idle| + Count(s.pc, HasSlot) + Count(s.txs, Unfinished) <= s.size
  {
    RoleCount(s);
  }

  /** With no call in flight every lock is free, the unfinished transactions are exactly the
      table, and the other permits are free. */
  lemma AtRest(s: State)
    requires Inv(s) && forall t | t in s.pc :: s.pc[t] == Idle
    ensures s.tableLock == None && s.poolLock == None && s.txLock == map[]
    ensures forall id | id in s.txs :: Unfinished(s.txs[id]) <==> id in s.table
    ensures s.permits + |s.table| == s.size
    ensures forall c | c in s.place && s.place[c] != Closed ::
              c in s.idle || exists id :: id in s.table && s.txs[id].conn == c
  {
    var r := RolesOf(s);
    RestingRole(Idle);
    forall t | t in r
      ensures r[t] == Role(Outside, None, [], false, [], [], false, false, Nothing)
    {}
    RestingCounts(s);
    AtRestStages(s, r);
    assert Keys(s.txs, Unfinished) == s.table;
    forall c | c in s.place && s.place[c] != Closed
      ensures c in s.idle || exists id :: id in s.table && s.txs[id].conn == c
    {
      if !s.place[c].AtIdle? {
        assert !s.place[c].AtThread?;
        assert s.place[c].id in s.table;
      }
    }
  }

  lemma AtRestStages(s: State, r: Roles)
    requires InvOver(s, r) && forall t | t in r :: r[t] == Role(Outside, None, [], false, [], [], false, false, Nothing)
    ensures s.tableLock == None && s.poolLock == None && s.txLock == map[]
    ensures s.table <= s.txs.Keys
    ensures forall id | id in s.txs :: Unfinished(s.txs[id]) <==> id in s.table
  {
    forall id | id in s.txLock
      ensures false
    {}
    forall id | id in s.txs
      ensures !s.txs[id].stage.Fresh? && !s.txs[id].stage.Detached?
    {}
  }

  lemma RestingCounts(s: State)
    requires Inv(s) && forall t | t in s.pc :: s.pc[t] == Idle
    ensures s.permits + Count(s.txs, Unfinished) == s.size
  {
    RoleCount(s);
    assert Keys(s.pc, HasPermit) == {};
  }
}
