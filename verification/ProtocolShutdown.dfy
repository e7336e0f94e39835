/** Shutdown after any interleaved history: what close() and close_all() leave behind, and
    that every connection is closed by exactly one step. */
module ProtocolShutdown {
  import opened Common
  import opened ProtocolState
  import opened ProtocolSteps
  import opened ProtocolInvariant
  import opened ProtocolPreservation
  import opened ProtocolRuns
  import opened ProtocolSafety
  import opened ProtocolFootprint
  import opened ProtocolEndings

  // ---- what one step does to the table, the idle list and closed connections ----

  /** The step puts a transaction into the table. */
  predicate Inserts(s: State, t: Tid) { t in s.pc && s.pc[t].TxInsert? && s.tableLock == Some(t) }

  /** The step pushes a connection onto the idle list. */
  predicate Pushes(s: State, t: Tid) { t in s.pc && s.pc[t].Push? && s.poolLock == Some(t) }

  /** The connection that the next statement closes. */
  function ClosesNow(p: Pc): Option<Conn> {
    if p.CkDead? || p.Drop? then Some(p.conn)
    else if p.DrainClose? && p.conns != [] then Some(p.conns[0])
    else None
  }

  predicate IsClosed(place: map<Conn, Place>, c: Conn) { c in place && place[c] == Closed }

  /** `place` changes by closing exactly `closed`; nothing that was closed is used again. */
  ghost predicate ClosesOnly(place: map<Conn, Place>, place': map<Conn, Place>, closed: Option<Conn>) {
    && place.Keys <= place'.Keys
    && forall c: Conn :: IsClosed(place', c) <==> IsClosed(place, c) || closed == Some(c)
  }

  ghost predicate Traffic(s: State, t: Tid, s': State)
    requires t in s.pc
  {
    && (s'.table <= s.table || Inserts(s, t))
    && (s.idle == [] ==> s'.idle == [] || Pushes(s, t))
    && ClosesOnly(s.place, s'.place, ClosesNow(s.pc[t]))
  }

  /** A connection that the thread has in its hands, itself or through a transaction that it
      is ending, is open. */
  lemma InHandIsOpen(s: State, t: Tid, c: Conn)
    requires Inv(s) && t in s.pc
    requires var p := s.pc[t]; c in Borrowed(p) || ((p.Push? || p.Drop?) && p.owner.OfTx? && p.conn == c)
    ensures c in s.place && !IsClosed(s.place, c)
  {
    hide InvOver;
    var p := s.pc[t];
    if c in Borrowed(p) {
      Hands(p);
      hide RoleOf;
      OwnConn(s, t, c);
    } else {
      EndingRoles(c, p.owner.id, p.owner.after);
      hide RoleOf;
      OwnJob(s, t);
      OwedIsDetached(s, t, p.owner.id);
      PinnedPlace(s, p.owner.id);
    }
  }

  lemma Hands(p: Pc)
    ensures RoleOf(p).borrowed == Borrowed(p)
  {}

  /** Neither table, idle list nor places. */
  lemma Still(s: State, t: Tid, s': State)
    requires t in s.pc && s'.table <= s.table && s'.idle == s.idle && s'.place == s.place && ClosesNow(s.pc[t]) == None
    ensures Traffic(s, t, s')
  {}

  lemma LookTraffic(s: State, t: Tid, ch: Choice)
    requires t in s.pc && Known(s, s.pc[t]) && Looking(s.pc[t]) && s.tableLock == Some(t)
    ensures Traffic(s, t, LookStep(s, t, ch).0)
  {
    hide Owes, Refers;
    if !s.pc[t].TxInsert? {
      hide Traffic;
      Still(s, t, LookStep(s, t, ch).0);
    }
  }

  lemma CloseTakeTraffic(s: State, t: Tid, ch: Choice)
    requires t in s.pc && Known(s, s.pc[t]) && s.pc[t].CloseTake?
    ensures Traffic(s, t, RemoveStep(s, t, ch).0) && RemoveStep(s, t, ch).0.table == {}
  {
    hide Owes, Refers, Shut, Traffic;
    Still(s, t, RemoveStep(s, t, ch).0);
  }

  lemma RemoveTraffic(s: State, t: Tid, ch: Choice)
    requires t in s.pc && Known(s, s.pc[t]) && Removing(s.pc[t]) && !s.pc[t].CloseTake?
    ensures Traffic(s, t, RemoveStep(s, t, ch).0)
  {
    hide Owes, Refers, Traffic;
    Still(s, t, RemoveStep(s, t, ch).0);
  }

  lemma ScanTraffic(s: State, t: Tid)
    requires Inv(s) && t in s.pc && Known(s, s.pc[t]) && s.pc[t].CkScan?
    ensures Traffic(s, t, PoolStep(s, t).0)
  {
    hide InvOver, Known;
    if s.idle != [] { IdleIsOpen(s, s.idle[|s.idle| - 1]); }
  }

  lemma IdleIsOpen(s: State, c: Conn)
    requires Inv(s) && c in s.idle
    ensures c in s.place && s.place[c] == AtIdle
  {}

  lemma PushTraffic(s: State, t: Tid)
    requires Inv(s) && t in s.pc && Known(s, s.pc[t]) && s.pc[t].Push? && s.poolLock == Some(t)
    ensures Traffic(s, t, PoolStep(s, t).0)
  {
    hide InvOver, Owes, Refers;
    InHandIsOpen(s, t, s.pc[t].conn);
  }

  lemma DrainTraffic(s: State, t: Tid)
    requires Inv(s) && t in s.pc && Known(s, s.pc[t]) && s.pc[t].DrainTake?
    ensures Traffic(s, t, PoolStep(s, t).0) && PoolStep(s, t).0.idle == []
  {
    hide InvOver, Known;
    forall c | c in s.idle
      ensures c in s.place && s.place[c] == AtIdle
    {
      IdleIsOpen(s, c);
    }
  }

  lemma SweepTraffic(s: State, t: Tid, ch: Choice)
    requires t in s.pc && Known(s, s.pc[t]) && Sweeping(s.pc[t])
    ensures Traffic(s, t, SweepStep(s, t, ch).0)
  {
    hide Known, Traffic;
    Still(s, t, SweepStep(s, t, ch).0);
  }

  lemma CandidateTraffic(s: State, t: Tid, ch: Choice)
    requires Inv(s) && t in s.pc && (s.pc[t].CkPing? || s.pc[t].CkDead?)
    ensures Traffic(s, t, CheckoutStep(s, t, ch).0)
  {
    hide InvOver;
    InHandIsOpen(s, t, s.pc[t].conn);
  }

  lemma CheckoutTraffic(s: State, t: Tid, ch: Choice)
    requires Inv(s) && t in s.pc && CheckingOut(s.pc[t]) && ch.freshConn !in s.place
    ensures Traffic(s, t, CheckoutStep(s, t, ch).0)
  {
    hide InvOver;
    if s.pc[t].CkPing? || s.pc[t].CkDead? {
      hide Traffic, CheckoutStep;
      CandidateTraffic(s, t, ch);
    }
  }

  lemma CallTraffic(s: State, t: Tid, ch: Choice)
    requires t in s.pc && Calling(s.pc[t])
    ensures Traffic(s, t, CallStep(s, t, ch).0)
  {
    hide Traffic;
    Still(s, t, CallStep(s, t, ch).0);
  }

  lemma FinCallTraffic(s: State, t: Tid, ch: Choice)
    requires t in s.pc && Known(s, s.pc[t]) && s.pc[t].FinCall?
    ensures Traffic(s, t, WorkStep(s, t, ch).0)
  {
    hide Owes, Refers, Traffic, WriteEnds;
    Still(s, t, WorkStep(s, t, ch).0);
  }

  lemma WorkTraffic(s: State, t: Tid, ch: Choice)
    requires t in s.pc && Known(s, s.pc[t]) && Working(s.pc[t])
    ensures Traffic(s, t, WorkStep(s, t, ch).0)
  {
    hide Owes, Refers, Traffic, CommitEnds, RollbackEnds;
    if s.pc[t].FinCall? {
      FinCallTraffic(s, t, ch);
    } else {
      Still(s, t, WorkStep(s, t, ch).0);
    }
  }

  lemma ReleaseTraffic(s: State, t: Tid)
    requires Inv(s) && t in s.pc && Releasing(s.pc[t]) && Known(s, s.pc[t])
    ensures Traffic(s, t, ReleaseStep(s, t).0)
  {
    hide InvOver, Owes, Refers;
    if s.pc[t].Drop? { InHandIsOpen(s, t, s.pc[t].conn); }
  }

  lemma ShutdownTraffic(s: State, t: Tid, ch: Choice)
    requires Inv(s) && t in s.pc && Known(s, s.pc[t]) && ShuttingDown(s.pc[t])
    ensures Traffic(s, t, ShutdownStep(s, t, ch).0)
  {
    hide InvOver, Owes, Refers;
    if s.pc[t].DrainClose? && s.pc[t].conns != [] { InHandIsOpen(s, t, s.pc[t].conns[0]); }
  }

  /** A step that only takes a lock closes nothing. */
  lemma LocksCloseNothing(p: Pc)
    ensures WantsTable(p) || WantsPool(p) ==> ClosesNow(p) == None
  {}

  lemma NextTraffic(s: State, t: Tid, ch: Choice)
    requires Inv(s) && Enabled(s, t, ch)
    ensures Traffic(s, t, Next(s, t, ch).0)
  {
    hide InvOver, Known, Traffic;
    hide LookStep, RemoveStep, PoolStep, SweepStep, CheckoutStep, CallStep, WorkStep, ReleaseStep, ShutdownStep;
    var p := s.pc[t];
    LocksCloseNothing(p);
    if (WantsTable(p) && s.tableLock != Some(t)) || (WantsPool(p) && s.poolLock != Some(t)) {
      Still(s, t, Next(s, t, ch).0);
    } else if Looking(p) {
      LookTraffic(s, t, ch);
    } else if p.CloseTake? {
      CloseTakeTraffic(s, t, ch);
    } else if Removing(p) {
      RemoveTraffic(s, t, ch);
    } else if p.CkScan? {
      ScanTraffic(s, t);
    } else if p.Push? {
      PushTraffic(s, t);
    } else if WantsPool(p) {
      DrainTraffic(s, t);
    } else if Sweeping(p) {
      SweepTraffic(s, t, ch);
    } else if CheckingOut(p) {
      CheckoutTraffic(s, t, ch);
    } else if Calling(p) {
      CallTraffic(s, t, ch);
    } else if Working(p) {
      WorkTraffic(s, t, ch);
    } else if Releasing(p) {
      ReleaseTraffic(s, t);
    } else {
      ShutdownTraffic(s, t, ch);
    }
  }

  // ---- every connection is closed by one step ----

  predicate Closes(s: State, l: Label, c: Conn) {
    l.Move? && l.t in s.pc && ClosesNow(s.pc[l.t]) == Some(c)
  }

  /** The number of steps before `n` that close `c`. */
  function CloseCalls(ss: seq<State>, ls: seq<Label>, n: nat, c: Conn): nat
    requires n <= |ls| && n <= |ss|
  {
    if n == 0 then 0 else CloseCalls(ss, ls, n - 1, c) + One(Closes(ss[n - 1], ls[n - 1], c))
  }

  lemma ClosesOpen(s: State, t: Tid, c: Conn)
    requires Inv(s) && t in s.pc && ClosesNow(s.pc[t]) == Some(c)
    ensures !IsClosed(s.place, c)
  {
    hide InvOver;
    InHandIsOpen(s, t, c);
  }

  lemma CloseStepCounts(s: State, l: Label, c: Conn)
    requires Inv(s) && Valid(s, l)
    ensures One(IsClosed(StepOf(s, l).0.place, c)) == One(IsClosed(s.place, c)) + One(Closes(s, l, c))
  {
    hide Inv, Next, Known, LockFree, Possible;
    match l
    case Move(t, ch) =>
      NextTraffic(s, t, ch);
      if Closes(s, l, c) { ClosesOpen(s, t, c); }
    case Tick(_) =>
  }

  /** In every run, the steps that close a connection are one if it is closed and none if it
      is not: a closed connection stays closed and is never closed again. */
  lemma {:induction false} ClosedByOneStep(ss: seq<State>, ls: seq<Label>, es: seq<Event>, n: nat, c: Conn)
    requires IsRun(ss, ls, es) && n < |ss|
    ensures CloseCalls(ss, ls, n, c) == One(IsClosed(ss[n].place, c))
  {
    hide Inv, Next, Known, LockFree, Possible, Closes;
    if n > 0 {
      ClosedByOneStep(ss, ls, es, n - 1, c);
      Reachable(ss, ls, es, n - 1);
      assert Valid(ss[n - 1], ls[n - 1]) && StepOf(ss[n - 1], ls[n - 1]).0 == ss[n];
      CloseStepCounts(ss[n - 1], ls[n - 1], c);
    }
  }

  lemma {:induction false} ClosedForEver(ss: seq<State>, ls: seq<Label>, es: seq<Event>, m: nat, n: nat, c: Conn)
    requires IsRun(ss, ls, es) && m <= n < |ss| && IsClosed(ss[m].place, c)
    ensures IsClosed(ss[n].place, c)
  {
    hide Inv, Next, Known, LockFree, Possible, Closes;
    if m < n {
      ClosedForEver(ss, ls, es, m, n - 1, c);
      Reachable(ss, ls, es, n - 1);
      assert Valid(ss[n - 1], ls[n - 1]) && StepOf(ss[n - 1], ls[n - 1]).0 == ss[n];
      CloseStepCounts(ss[n - 1], ls[n - 1], c);
    }
  }

  // ---- shutdown while other calls are still in flight ----

  /** The step empties the table for close(). */
  predicate TakesTable(s: State, l: Label) {
    l.Move? && l.t in s.pc && s.pc[l.t].CloseTake? && s.tableLock == Some(l.t)
  }

  /** The step empties the idle list for close_all(). */
  predicate TakesIdle(s: State, l: Label) {
    l.Move? && l.t in s.pc && s.pc[l.t].DrainTake? && s.poolLock == Some(l.t)
  }

  lemma TableStep(s: State, l: Label)
    requires Inv(s) && Valid(s, l)
    ensures TakesTable(s, l) ==> StepOf(s, l).0.table == {}
    ensures !(l.Move? && Inserts(s, l.t)) ==> StepOf(s, l).0.table <= s.table
  {
    hide InvOver, Known, RemoveStep;
    match l
    case Move(t, ch) =>
      if TakesTable(s, l) { CloseTakeTraffic(s, t, ch); }
      hide Next;
      NextTraffic(s, t, ch);
    case Tick(_) =>
  }

  lemma IdleStep(s: State, l: Label)
    requires Inv(s) && Valid(s, l)
    ensures TakesIdle(s, l) ==> StepOf(s, l).0.idle == []
    ensures s.idle == [] && !(l.Move? && Pushes(s, l.t)) ==> StepOf(s, l).0.idle == []
  {
    hide InvOver, Known, PoolStep;
    match l
    case Move(t, ch) =>
      if TakesIdle(s, l) { DrainTraffic(s, t); }
      hide Next;
      NextTraffic(s, t, ch);
    case Tick(_) =>
  }

  lemma {:induction false} TableStaysEmpty(ss: seq<State>, ls: seq<Label>, es: seq<Event>, i: nat, n: nat)
    requires IsRun(ss, ls, es) && i < n < |ss| && TakesTable(ss[i], ls[i])
    requires forall k | i < k < n && ls[k].Move? :: !Inserts(ss[k], ls[k].t)
    ensures ss[n].table == {}
  {
    hide Inv, Next, Known, LockFree, Possible, Inserts, TakesTable;
    Reachable(ss, ls, es, n - 1);
    assert Valid(ss[n - 1], ls[n - 1]) && StepOf(ss[n - 1], ls[n - 1]).0 == ss[n];
    TableStep(ss[n - 1], ls[n - 1]);
    if i < n - 1 { TableStaysEmpty(ss, ls, es, i, n - 1); }
  }

  lemma {:induction false} IdleStaysEmpty(ss: seq<State>, ls: seq<Label>, es: seq<Event>, m: nat, n: nat)
    requires IsRun(ss, ls, es) && m < n < |ss| && TakesIdle(ss[m], ls[m])
    requires forall k | m < k < n && ls[k].Move? :: !Pushes(ss[k], ls[k].t)
    ensures ss[n].idle == []
  {
    hide Inv, Next, Known, LockFree, Possible, Pushes, TakesIdle;
    Reachable(ss, ls, es, n - 1);
    assert Valid(ss[n - 1], ls[n - 1]) && StepOf(ss[n - 1], ls[n - 1]).0 == ss[n];
    IdleStep(ss[n - 1], ls[n - 1]);
    if m < n - 1 { IdleStaysEmpty(ss, ls, es, m, n - 1); }
  }

  /** Nothing is left: no transaction, no connection, no lock, and every permit is free. */
  ghost predicate ShutDown(s: State) {
    && s.table == {} && s.idle == [] && s.permits == s.size
    && s.txLock == map[] && s.tableLock == None && s.poolLock == None
    && (forall c | c in s.place :: s.place[c] == Closed)
    && (forall id | id in s.txs :: s.txs[id].stage.Done?)
  }

  ghost predicate AllIdle(s: State) { forall t | t in s.pc :: s.pc[t].Idle? }

  lemma EmptyAtRest(s: State)
    requires Inv(s) && AllIdle(s) && s.table == {} && s.idle == []
    ensures ShutDown(s)
  {
    hide InvOver;
    AtRest(s);
  }

  lemma ClosedOnce(ss: seq<State>, ls: seq<Label>, es: seq<Event>, n: nat)
    requires IsRun(ss, ls, es) && n < |ss| && ShutDown(ss[n])
    ensures forall c | c in ss[n].place :: CloseCalls(ss, ls, n, c) == 1
  {
    forall c | c in ss[n].place
      ensures CloseCalls(ss, ls, n, c) == 1
    {
      ClosedByOneStep(ss, ls, es, n, c);
    }
  }

  /** After any interleaved history, and with other calls still in flight: once close() has
      emptied the table and close_all() the idle list, if no first write inserts its
      transaction after the former and no connection is pushed back after the latter, then as
      soon as the last call has left nothing is open, every permit is free, and every
      connection ever opened has been closed by exactly one step. */
  lemma ShutdownIsComplete(ss: seq<State>, ls: seq<Label>, es: seq<Event>, i: nat, m: nat, n: nat)
    requires IsRun(ss, ls, es) && i < n < |ss| && m < n && AllIdle(ss[n])
    requires TakesTable(ss[i], ls[i]) && forall k | i < k < n && ls[k].Move? :: !Inserts(ss[k], ls[k].t)
    requires TakesIdle(ss[m], ls[m]) && forall k | m < k < n && ls[k].Move? :: !Pushes(ss[k], ls[k].t)
    ensures ShutDown(ss[n])
    ensures forall c | c in ss[n].place :: CloseCalls(ss, ls, n, c) == 1
  {
    Reachable(ss, ls, es, n);
    TableStaysEmpty(ss, ls, es, i, n);
    IdleStaysEmpty(ss, ls, es, m, n);
    EmptyAtRest(ss[n]);
    ClosedOnce(ss, ls, es, n);
  }

  // ---- shutdown after all other calls have left ----

  /** Every thread but `t` is outside. */
  ghost predicate OnlyBusy(s: State, t: Tid) {
    t in s.pc && forall u | u in s.pc && u != t :: s.pc[u].Idle?
  }

  predicate Busy(s: State, t: Tid) { t in s.pc && !s.pc[t].Idle? }

  /** In close(), after the table was emptied. */
  predicate Closing(p: Pc) {
    || p.CloseNext? || p.CloseCall? || (p.TxUnlock? && p.after.AfterClose?)
    || ((p.Push? || p.Drop? || p.Post?) && p.owner.OfTx? && p.owner.after.AfterClose?)
  }

  lemma IdleStarts(s: State, t: Tid, ch: Choice)
    requires Enabled(s, t, ch) && s.pc[t].Idle?
    ensures var s' := Next(s, t, ch).0; t in s'.pc && !s'.pc[t].Idle?
  {
    hide Known;
  }

  /** Between two states with only `t` inside, only `t` can have moved. */
  lemma MoverIs(s: State, l: Label, t: Tid)
    requires Valid(s, l) && l.Move? && OnlyBusy(s, t) && OnlyBusy(StepOf(s, l).0, t)
    ensures l.t == t
  {
    if l.t != t { IdleStarts(s, l.t, l.ch); }
  }

  lemma EndingGoesOn(s: State, t: Tid, ch: Choice)
    requires t in s.pc && Known(s, s.pc[t]) && Closing(s.pc[t]) && !ShuttingDown(s.pc[t])
    ensures var p := Next(s, t, ch).0.pc; t in p && (Closing(p[t]) || p[t].Idle?)
  {
    hide Owes, Refers;
  }

  lemma ClosingGoesOn(s: State, t: Tid, ch: Choice)
    requires t in s.pc && Known(s, s.pc[t]) && Closing(s.pc[t])
    ensures var p := Next(s, t, ch).0.pc; t in p && (Closing(p[t]) || p[t].Idle?)
  {
    hide Owes, Refers;
    if !ShuttingDown(s.pc[t]) {
      hide Next;
      EndingGoesOn(s, t, ch);
    }
  }

  lemma CloseTakeGoesOn(s: State, t: Tid, ch: Choice)
    requires t in s.pc && Known(s, s.pc[t]) && s.pc[t].CloseTake?
    ensures var s' := Next(s, t, ch).0;
            t in s'.pc && (s'.pc[t].CloseTake? || (Closing(s'.pc[t]) && s'.table == {}))
  {
    hide Owes, Refers, Shut;
  }

  lemma DrainGoesOn(s: State, t: Tid, ch: Choice)
    requires t in s.pc && Known(s, s.pc[t]) && (s.pc[t].DrainTake? || s.pc[t].DrainClose?)
    ensures var s' := Next(s, t, ch).0;
            && t in s'.pc
            && (s'.pc[t].DrainTake? || s'.pc[t].DrainClose? || s'.pc[t].Idle?)
            && (!s'.pc[t].DrainTake? ==> s'.idle == [] || (s.pc[t].DrainClose? && s'.idle == s.idle))
  {
    hide Owes, Refers, Drained;
  }

  /** Only a commit makes work durable. */
  lemma SameLog(s: State, t: Tid, ch: Choice)
    requires Inv(s) && Enabled(s, t, ch) && !AtCommit(s.pc[t])
    ensures Next(s, t, ch).0.durable == s.durable
  {
    hide Inv, Next, Known, LockFree, Possible;
    NextTellsTheTruth(s, t, ch);
    assert s.durable + [] == s.durable;
  }

  ghost predicate InClose(s: State, t: Tid, log: seq<seq<Write>>) {
    && t in s.pc && s.durable == log
    && (s.pc[t].CloseTake? || ((Closing(s.pc[t]) || s.pc[t].Idle?) && s.table == {}))
  }

  lemma CloseStep(s: State, l: Label, t: Tid, log: seq<seq<Write>>)
    requires Inv(s) && Valid(s, l) && InClose(s, t, log) && !s.pc[t].Idle? && (l.Move? ==> l.t == t)
    ensures InClose(StepOf(s, l).0, t, log)
  {
    hide Inv, Next, Known, LockFree, Possible;
    match l
    case Move(_, ch) =>
      SameLog(s, t, ch);
      NextTraffic(s, t, ch);
      if s.pc[t].CloseTake? { CloseTakeGoesOn(s, t, ch); } else { ClosingGoesOn(s, t, ch); }
    case Tick(_) =>
  }

  lemma {:induction false} CloseRuns(ss: seq<State>, ls: seq<Label>, es: seq<Event>, t: Tid, i: nat, k: nat)
    requires IsRun(ss, ls, es) && i <= k < |ss| && t in ss[i].pc && ss[i].pc[t].CloseTake?
    requires forall x | i <= x <= k :: OnlyBusy(ss[x], t)
    requires forall x | i <= x < k :: Busy(ss[x], t)
    ensures InClose(ss[k], t, ss[i].durable)
  {
    hide Inv, Next, Known, LockFree, Possible, OnlyBusy, InClose;
    if i == k {
      assert InClose(ss[k], t, ss[i].durable) by { StartsClose(ss[k], t); }
    } else {
      CloseRuns(ss, ls, es, t, i, k - 1);
      Reachable(ss, ls, es, k - 1);
      assert Valid(ss[k - 1], ls[k - 1]) && StepOf(ss[k - 1], ls[k - 1]).0 == ss[k];
      if ls[k - 1].Move? { MoverIs(ss[k - 1], ls[k - 1], t); }
      CloseStep(ss[k - 1], ls[k - 1], t, ss[i].durable);
    }
  }

  lemma StartsClose(s: State, t: Tid)
    requires t in s.pc && s.pc[t].CloseTake?
    ensures InClose(s, t, s.durable)
  {}

  /** Nobody is inside, or somebody starts: table and log stay. */
  lemma QuietStep(s: State, l: Label)
    requires Inv(s) && Valid(s, l) && AllIdle(s) && s.table == {}
    ensures StepOf(s, l).0.table == {} && StepOf(s, l).0.durable == s.durable
  {
    hide Inv, Next, Known, LockFree, Possible;
    match l
    case Move(t, ch) =>
      SameLog(s, t, ch);
      NextTraffic(s, t, ch);
    case Tick(_) =>
  }

  lemma {:induction false} QuietRuns(ss: seq<State>, ls: seq<Label>, es: seq<Event>, j: nat, m: nat)
    requires IsRun(ss, ls, es) && j <= m < |ss| && ss[j].table == {} && forall x | j <= x < m :: AllIdle(ss[x])
    ensures ss[m].table == {} && ss[m].durable == ss[j].durable
  {
    hide Inv, Next, Known, LockFree, Possible, AllIdle;
    if j < m {
      QuietRuns(ss, ls, es, j, m - 1);
      Reachable(ss, ls, es, m - 1);
      assert Valid(ss[m - 1], ls[m - 1]) && StepOf(ss[m - 1], ls[m - 1]).0 == ss[m];
      QuietStep(ss[m - 1], ls[m - 1]);
    }
  }

  ghost predicate InDrain(s: State, t: Tid, log: seq<seq<Write>>) {
    && t in s.pc && s.durable == log && s.table == {}
    && (s.pc[t].DrainTake? || ((s.pc[t].DrainClose? || s.pc[t].Idle?) && s.idle == []))
  }

  lemma DrainStep(s: State, l: Label, t: Tid, log: seq<seq<Write>>)
    requires Inv(s) && Valid(s, l) && InDrain(s, t, log) && !s.pc[t].Idle? && (l.Move? ==> l.t == t)
    ensures InDrain(StepOf(s, l).0, t, log)
  {
    hide Inv, Next, Known, LockFree, Possible;
    match l
    case Move(_, ch) =>
      SameLog(s, t, ch);
      NextTraffic(s, t, ch);
      DrainGoesOn(s, t, ch);
    case Tick(_) =>
  }

  lemma {:induction false} DrainRuns(ss: seq<State>, ls: seq<Label>, es: seq<Event>, t: Tid, m: nat, k: nat)
    requires IsRun(ss, ls, es) && m <= k < |ss| && InDrain(ss[m], t, ss[m].durable)
    requires forall x | m <= x <= k :: OnlyBusy(ss[x], t)
    requires forall x | m <= x < k :: Busy(ss[x], t)
    ensures InDrain(ss[k], t, ss[m].durable)
  {
    hide Inv, Next, Known, LockFree, Possible, OnlyBusy, InDrain;
    if m < k {
      DrainRuns(ss, ls, es, t, m, k - 1);
      Reachable(ss, ls, es, k - 1);
      assert Valid(ss[k - 1], ls[k - 1]) && StepOf(ss[k - 1], ls[k - 1]).0 == ss[k];
      if ls[k - 1].Move? { MoverIs(ss[k - 1], ls[k - 1], t); }
      DrainStep(ss[k - 1], ls[k - 1], t, ss[m].durable);
    }
  }

  /** `t` is alone inside from `i` to `k`, and leaves at `k`. */
  ghost predicate RunsAlone(ss: seq<State>, t: Tid, i: nat, k: nat)
    requires i <= k < |ss|
  {
    && (forall x | i <= x <= k :: OnlyBusy(ss[x], t))
    && (forall x | i <= x < k :: Busy(ss[x], t))
    && ss[k].pc[t].Idle?
  }

  /** After any interleaved history that has come to rest: one thread runs close() and then one
      thread, the same or another, runs close_all(), whichever rollbacks and closes fail.
      Nothing is left open, every permit is free, nothing more became durable, and every
      connection ever opened has been closed by exactly one step. */
  lemma QuietShutdownIsComplete(ss: seq<State>, ls: seq<Label>, es: seq<Event>,
                                t: Tid, i: nat, j: nat, u: Tid, m: nat, n: nat)
    requires IsRun(ss, ls, es) && i <= j <= m <= n < |ss|
    requires RunsAlone(ss, t, i, j) && ss[i].pc[t].CloseTake?
    requires forall x | j <= x < m :: AllIdle(ss[x])
    requires RunsAlone(ss, u, m, n) && ss[m].pc[u].DrainTake?
    ensures ShutDown(ss[n]) && ss[n].durable == ss[i].durable
    ensures forall c | c in ss[n].place :: CloseCalls(ss, ls, n, c) == 1
  {
    hide Inv;
    CloseRuns(ss, ls, es, t, i, j);
    QuietRuns(ss, ls, es, j, m);
    DrainRuns(ss, ls, es, u, m, n);
    Reachable(ss, ls, es, n);
    EmptyAtRest(ss[n]);
    ClosedOnce(ss, ls, es, n);
  }
}
