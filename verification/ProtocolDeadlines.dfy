/** Late calls are refused without touching a connection, and expiry ends only transactions
    that have been unused for longer than the time to live. */
module ProtocolDeadlines {
  import opened Common
  import opened ProtocolState
  import opened ProtocolSteps
  import opened ProtocolInvariant
  import opened ProtocolPreservation
  import opened ProtocolRuns
  import opened ProtocolSafety
  import opened ProtocolFootprint
  import opened ProtocolEndings

  // ---- an ended transaction stays ended ----

  predicate Ended(s: State, id: Id) { id in s.txs && !Open(s.txs[id]) }

  lemma EndedStays(s: State, l: Label, id: Id)
    requires Inv(s) && Valid(s, l) && Ended(s, id)
    ensures Ended(StepOf(s, l).0, id)
  {
    match l
    case Move(t, ch) =>
      NextTellsTheTruth(s, t, ch);
      hide Inv, Next, Known, LockFree, Possible;
      assert TxAdvances(s, t, Next(s, t, ch).0, Next(s, t, ch).1, id);
    case Tick(_) =>
  }

  lemma {:induction false} EndedForEver(ss: seq<State>, ls: seq<Label>, es: seq<Event>, m: nat, n: nat, id: Id)
    requires IsRun(ss, ls, es) && m <= n < |ss| && Ended(ss[m], id)
    ensures Ended(ss[n], id)
  {
    hide Inv, Next, Known, LockFree, Possible, Ended;
    if m < n {
      EndedForEver(ss, ls, es, m, n - 1, id);
      Reachable(ss, ls, es, n - 1);
      EndedStays(ss[n - 1], ls[n - 1], id);
    }
  }

  /** The thread is about to look the transaction up, or has its lock and checks that the
      transaction is still current. */
  predicate AsksFor(p: Pc, id: Id) {
    (p.TxLookup? || p.WriteCheck? || p.FinLookup? || p.FinRemove?) && p.id == id
  }

  /** Where a refused call goes: it raises TransactionNotFoundError, after giving the lock of
      the transaction back if it has it. */
  function AfterRefusal(p: Pc, id: Id): Pc {
    if Holds(p).Some? then TxUnlock(id, AfterCall) else Idle
  }

  lemma Refuses(s: State, t: Tid, ch: Choice, id: Id)
    requires t in s.pc && Known(s, s.pc[t]) && AsksFor(s.pc[t], id) && s.tableLock == Some(t) && id !in s.table
    ensures Next(s, t, ch) == (Goto(UnlockTable(s), t, AfterRefusal(s.pc[t], id)), Refused(id))
  {
    hide Owes, Refers;
  }

  /** Once a transaction has been taken out of the table, every later call that names it, and
      every call that was already waiting for its lock, is refused: the step touches no
      connection, no transaction and no permit. */
  lemma LateCallIsRefused(ss: seq<State>, ls: seq<Label>, es: seq<Event>, m: nat, n: nat, t: Tid, ch: Choice, id: Id)
    requires IsRun(ss, ls, es) && m < n < |ls| && es[m].Removed? && id in es[m].ids
    requires ls[n] == Move(t, ch) && t in ss[n].pc && AsksFor(ss[n].pc[t], id) && ss[n].tableLock == Some(t)
    ensures es[n] == Refused(id)
    ensures ss[n + 1] == Goto(UnlockTable(ss[n]), t, AfterRefusal(ss[n].pc[t], id))
  {
    hide Inv, Next, LockFree, Possible;
    Reachable(ss, ls, es, m);
    assert Valid(ss[m], ls[m]) && StepOf(ss[m], ls[m]) == (ss[m + 1], es[m]);
    NextTellsTheTruth(ss[m], ls[m].t, ls[m].ch);
    hide Known;
    EndedForEver(ss, ls, es, m + 1, n, id);
    Reachable(ss, ls, es, n);
    TableIsLive(ss[n]);
    assert Valid(ss[n], ls[n]) && StepOf(ss[n], ls[n]) == (ss[n + 1], es[n]);
    Refuses(ss[n], t, ch, id);
  }

  // ---- expiry ----

  /** A sweep's cutoff is a past moment less the time to live. */
  ghost predicate CutoffsPast(s: State) {
    forall t | t in s.pc && CutoffOf(s.pc[t]).Some? :: CutoffOf(s.pc[t]).value <= s.now - s.ttl
  }

  lemma CutoffsStep(s: State, t: Tid, s': State, e: Event)
    requires CutoffsPast(s) && t in s.pc && LeavesOthers(s, t, s') && Accounted(s, t, (s', e))
    ensures CutoffsPast(s')
  {
    hide CutoffOf, Accounts;
  }

  lemma {:induction false} CutoffsArePast(ss: seq<State>, ls: seq<Label>, es: seq<Event>, n: nat)
    requires IsRun(ss, ls, es) && n < |ss|
    ensures CutoffsPast(ss[n])
  {
    hide Inv, Next, Known, LockFree, Possible, LeavesOthers, Accounted;
    if n > 0 {
      var k := n - 1;
      CutoffsArePast(ss, ls, es, k);
      Reachable(ss, ls, es, k);
      assert Valid(ss[k], ls[k]) && StepOf(ss[k], ls[k]) == (ss[n], es[k]);
      match ls[k]
      case Move(t, ch) =>
        NextLeavesOthers(ss[k], t, ch);
        NextAccounted(ss[k], t, ch);
        CutoffsStep(ss[k], t, ss[n], es[k]);
      case Tick(_) =>
    }
  }

  lemma SweepRemoves(s: State, t: Tid, ch: Choice)
    requires t in s.pc && Known(s, s.pc[t]) && s.pc[t].SweepLocked? && s.tableLock == Some(t)
    requires RemoveStep(s, t, ch).1.Removed?
    ensures s.pc[t].id in s.table && s.txs[s.pc[t].id].lastUsed < s.pc[t].cutoff
  {
    hide Owes, Refers;
  }

  /** Nobody has a call in progress on the connection of a transaction whose lock is held by
      a thread that is not calling. */
  lemma LockedIsQuiet(s: State, t: Tid, id: Id, u: Tid)
    requires Inv(s) && t in s.pc && Holds(s.pc[t]) == Some(id) && id in s.table && CallsOn(s, t) == None && u in s.pc
    ensures id in s.txs && CallsOn(s, u) != Some(s.txs[id].conn)
  {
    TableIsLive(s);
    var c := s.txs[id].conn;
    PinnedPlace(s, id);
    hide InvOver;
    if CallsOn(s, u) == Some(c) {
      CallerOwns(s, u, c);
      LockIsExclusive(s, t, u);
    }
  }

  /** In every run, whatever is removed as expired is one transaction that was last used more
      than the time to live ago, whose lock the sweeping thread holds, and on whose
      connection no call is in progress. */
  lemma ExpiryIsSafe(ss: seq<State>, ls: seq<Label>, es: seq<Event>, n: nat)
    requires IsRun(ss, ls, es) && n < |ls| && es[n].Removed? && es[n].why == ByExpiry
    ensures ls[n].Move? && ls[n].t in ss[n].pc
    ensures var s, t := ss[n], ls[n].t;
            exists id :: es[n].ids == {id} && id in s.table && id in s.txs
                         && s.txs[id].lastUsed < s.now - s.ttl
                         && id in s.txLock && s.txLock[id] == t
                         && forall u | u in s.pc :: CallsOn(s, u) != Some(s.txs[id].conn)
  {
    hide Inv, Next, LockFree, Possible, Known, RemoveStep;
    var s := ss[n];
    Reachable(ss, ls, es, n);
    CutoffsArePast(ss, ls, es, n);
    assert Valid(s, ls[n]) && StepOf(s, ls[n]) == (ss[n + 1], es[n]);
    var t, ch := ls[n].t, ls[n].ch;
    NextAccounted(s, t, ch);
    var id := s.pc[t].id;
    AtSweepLocked(s, t, ch);
    SweepRemoves(s, t, ch);
    forall u | u in s.pc
      ensures id in s.txs && CallsOn(s, u) != Some(s.txs[id].conn)
    {
      LockedIsQuiet(s, t, id, u);
    }
    HolderHasLock(s, t, id);
    TableIsLive(s);
  }

  lemma AtSweepLocked(s: State, t: Tid, ch: Choice)
    requires Enabled(s, t, ch) && s.pc[t].SweepLocked? && Next(s, t, ch).1.Removed?
    ensures s.tableLock == Some(t) && Next(s, t, ch) == RemoveStep(s, t, ch)
  {
    hide Known, RemoveStep;
  }

  lemma HolderHasLock(s: State, t: Tid, id: Id)
    requires Inv(s) && t in s.pc && Holds(s.pc[t]) == Some(id)
    ensures id in s.txLock && s.txLock[id] == t
  {
    assert RolesOf(s)[t].holds == Holds(s.pc[t]);
  }

  // ---- last use ----

  ghost predicate UsedInThePast(s: State) {
    forall id | id in s.txs :: s.txs[id].lastUsed <= s.now
  }

  /** From moment `since` on, `id` counts as used. */
  predicate UsedSince(s: State, id: Id, since: int) { id in s.txs && s.txs[id].lastUsed >= since }

  lemma UseStep(s: State, l: Label)
    requires Inv(s) && Valid(s, l) && UsedInThePast(s)
    ensures UsedInThePast(StepOf(s, l).0) && StepOf(s, l).0.now >= s.now
    ensures forall id, since | UsedSince(s, id, since) && since <= s.now :: UsedSince(StepOf(s, l).0, id, since)
  {
    match l
    case Move(t, ch) =>
      NextTellsTheTruth(s, t, ch);
      NextLeavesOthers(s, t, ch);
      hide Inv, Next, Known, LockFree, Possible;
      var s', e := Next(s, t, ch).0, Next(s, t, ch).1;
      forall id | id in s.txs
        ensures id in s'.txs && (s'.txs[id].lastUsed == s.txs[id].lastUsed || s'.txs[id].lastUsed == s.now)
      {
        assert TxAdvances(s, t, s', e, id);
      }
    case Tick(_) =>
  }

  lemma {:induction false} UsesArePast(ss: seq<State>, ls: seq<Label>, es: seq<Event>, n: nat)
    requires IsRun(ss, ls, es) && n < |ss|
    ensures UsedInThePast(ss[n])
  {
    hide Inv, Next, Known, LockFree, Possible;
    if n > 0 {
      UsesArePast(ss, ls, es, n - 1);
      Reachable(ss, ls, es, n - 1);
      UseStep(ss[n - 1], ls[n - 1]);
    }
  }

  /** Step `m` acknowledges a successful write of `id`. */
  predicate Acknowledges(s: State, l: Label, id: Id) {
    l.Move? && l.t in s.pc && s.pc[l.t] == WriteAck(id)
  }

  lemma AckCounts(s: State, l: Label, id: Id)
    requires Valid(s, l) && Acknowledges(s, l, id)
    ensures UsedSince(StepOf(s, l).0, id, s.now)
  {
    hide Owes, Refers;
  }

  lemma {:induction false} UseIsRemembered(ss: seq<State>, ls: seq<Label>, es: seq<Event>, m: nat, n: nat, id: Id)
    requires IsRun(ss, ls, es) && m < n < |ss| && Acknowledges(ss[m], ls[m], id)
    ensures UsedSince(ss[n], id, ss[m].now) && ss[m].now <= ss[n].now
  {
    hide Inv, Next, Known, LockFree, Possible, UsedSince, Acknowledges, UsedInThePast;
    Reachable(ss, ls, es, n - 1);
    UsesArePast(ss, ls, es, n - 1);
    UseStep(ss[n - 1], ls[n - 1]);
    if m == n - 1 {
      AckCounts(ss[m], ls[m], id);
    } else {
      UseIsRemembered(ss, ls, es, m, n - 1, id);
    }
  }

  /** In every run, a transaction that expires has had no write acknowledged within the time to
      live: every acknowledgement came more than `ttl` before the removal. */
  lemma ExpiredWasUnused(ss: seq<State>, ls: seq<Label>, es: seq<Event>, m: nat, n: nat, id: Id)
    requires IsRun(ss, ls, es) && m < n < |ls| && Acknowledges(ss[m], ls[m], id)
    requires es[n].Removed? && es[n].why == ByExpiry && id in es[n].ids
    ensures ss[m].now < ss[n].now - ss[n].ttl
  {
    ExpiryIsSafe(ss, ls, es, n);
    UseIsRemembered(ss, ls, es, m, n, id);
  }
}
