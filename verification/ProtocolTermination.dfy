/** Every method call ends after a bounded number of the calling thread's own steps, as long
    as its blocking acquires succeed: no loop can be kept going by the other threads. */
module ProtocolTermination {
  import opened Common
  import opened ProtocolState
  import opened ProtocolSteps
  import opened ProtocolInvariant
  import opened ProtocolEffects
  import opened ProtocolPreservation
  import opened ProtocolRuns
  import opened ProtocolSafety
  import opened ProtocolFootprint

  // ---- how many own steps are left ----

  /** One borrowed connection, from the semaphore wait to the next statement after it. */
  function LoanCost(size: nat): nat { 3 * size + 14 }

  function GoalCost(size: nat, goal: Goal): nat {
    match goal
    case GRead(n) => LoanCost(size) + n * LoanCost(size)
    case GWrite(n, _, _) => 3 * size + 23 + n * LoanCost(size)
    case GFinish(_, _) => 11
  }

  function SweepCost(size: nat, goal: Goal, todo: nat): nat { 1 + GoalCost(size, goal) + 10 * todo }

  function CloseCost(todo: nat): nat { 1 + 10 * todo }

  function LoanRest(size: nat, loan: Loan): nat {
    if loan.Lookup? then GoalCost(size, loan.goal) else 0
  }

  function AfterCost(size: nat, after: After): nat {
    match after
    case AfterCall => 0
    case AfterSweep(goal, _, rest) => SweepCost(size, goal, |rest|)
    case AfterClose(rest) => CloseCost(|rest|)
  }

  function OwnerRest(size: nat, owner: Owner): nat {
    match owner
    case OfLoan(loan, _) => LoanRest(size, loan)
    case OfTx(_, after) => AfterCost(size, after)
  }

  function WantCost(size: nat, want: Want): nat {
    match want
    case ForCall(loan) => 5 + LoanRest(size, loan)
    case ForWrite(_) => 14
  }

  /** Steps left at `p`; `locked` says that the lock of the next statement is already held,
      and `idle` is the length of the idle list then. */
  function StepsLeft(size: nat, p: Pc, locked: bool, idle: nat): nat {
    match p
    case Idle => 0
    case SweepTake(goal, _) => SweepCost(size, goal, size) + (if locked then 1 else 2)
    case SweepHead(goal, _, todo) => SweepCost(size, goal, |todo|)
    case SweepTry(goal, _, _, rest) => SweepCost(size, goal, |rest|) + 9
    case SweepLocked(goal, _, _, rest) => SweepCost(size, goal, |rest|) + (if locked then 7 else 8)
    case SweepCall(goal, _, _, rest) => SweepCost(size, goal, |rest|) + 6
    case Prepare(goal) => GoalCost(size, goal)
    case CkWait(want) => 3 * size + 8 + WantCost(size, want)
    case CkScan(want) => (if locked then 3 * idle + 6 else 3 * size + 7) + WantCost(size, want)
    case CkPing(want, _) => 3 * idle + 8 + WantCost(size, want)
    case CkDead(want, _) => 3 * idle + 7 + WantCost(size, want)
    case CkOpen(want) => 5 + WantCost(size, want)
    case CkFail => 1
    case ReadCall(loan, _) => 5 + LoanRest(size, loan)
    case TxInsert(_, _) => if locked then 12 else 13
    case TxLookup(_, _) => if locked then 12 else 13
    case WriteWait(_, _) => 11
    case WriteCheck(_, _) => if locked then 9 else 10
    case WriteCall(_, _) => 8
    case WriteAck(_) => 7
    case Discard(_) => if locked then 6 else 7
    case FinLookup(_, _) => if locked then 9 else 10
    case FinWait(_, _) => 8
    case FinRemove(_, _) => if locked then 6 else 7
    case FinCall(_, _) => 5
    case Push(_, owner) => (if locked then 3 else 4) + OwnerRest(size, owner)
    case Drop(_, owner) => 3 + OwnerRest(size, owner)
    case Post(owner) => 2 + OwnerRest(size, owner)
    case TxUnlock(_, after) => 1 + AfterCost(size, after)
    case CloseTake => CloseCost(size) + (if locked then 1 else 2)
    case CloseNext(todo) => CloseCost(|todo|)
    case CloseCall(_, rest) => CloseCost(|rest|) + 6
    case DrainTake => size + (if locked then 2 else 3)
    case DrainClose(cs) => 1 + |cs|
  }

  predicate Locked(s: State, t: Tid, p: Pc) {
    if WantsTable(p) then s.tableLock == Some(t) else s.poolLock == Some(t)
  }

  function OwnSteps(s: State, t: Tid): nat {
    if t in s.pc then StepsLeft(s.size, s.pc[t], Locked(s, t, s.pc[t]), |s.idle|) else 0
  }

  // ---- the thread's own steps use it up ----

  lemma IdleFits(s: State)
    requires Inv(s)
    ensures |s.idle| <= s.size && |s.table| <= s.size
  {
    assert s.table <= Keys(s.txs, Unfinished);
    SubsetSize(s.table, Keys(s.txs, Unfinished));
  }

  lemma {:induction false} EnumeratedLength(ids: seq<Id>, table: set<Id>)
    requires Enumerates(ids, table)
    ensures |ids| == |table|
  {
    if ids == [] {
      assert table == {};
    } else {
      var rest := ids[1..];
      assert ids == [ids[0]] + rest;
      forall id
        ensures id in rest <==> id in table - {ids[0]}
      {
        if id in rest {
          var i :| 0 <= i < |rest| && rest[i] == id;
          assert ids[i + 1] == id;
        }
      }
      EnumeratedLength(rest, table - {ids[0]});
    }
  }

  lemma OneLess(n: nat, cost: nat)
    requires n > 0
    ensures n * cost == (n - 1) * cost + cost
  {}

  /** It is enough to compare the two program counters. */
  lemma Spends(s: State, t: Tid, s': State, q: Pc, p: Pc)
    requires t in s.pc && s.pc[t] == q && t in s'.pc && s'.pc[t] == p
    requires s'.size == s.size && |s'.idle| <= s.size
    requires |s.idle| <= s.size
    requires StepsLeft(s.size, p, false, |s'.idle|) < StepsLeft(s.size, q, true, |s.idle|)
    ensures OwnSteps(s', t) < OwnSteps(s, t)
  {
    LockedIsLess(s.size, q, |s.idle|);
    LockedIsLess(s.size, p, |s'.idle|);
  }

  lemma LockedIsLess(size: nat, p: Pc, idle: nat)
    requires idle <= size
    ensures StepsLeft(size, p, true, idle) <= StepsLeft(size, p, false, idle)
  {
    hide OwnerRest, WantCost, SweepCost, CloseCost, LoanRest, AfterCost, GoalCost;
  }

  /** The thread goes on to `p`, and the idle list stays. */
  predicate GoesTo(s: State, t: Tid, s': State, p: Pc) {
    t in s'.pc && s'.pc[t] == p && s'.size == s.size && s'.idle == s.idle
  }

  ghost predicate Room(s: State) { |s.idle| <= s.size && |s.table| <= s.size }

  lemma EntryUses(s: State, t: Tid, ch: Choice)
    requires t in s.pc && Known(s, s.pc[t]) && Room(s) && (s.pc[t].SweepTake? || s.pc[t].TxInsert?) &&
             s.tableLock == Some(t)
    requires s.pc[t].SweepTake? ==> |ch.ids| == |s.table|
    ensures OwnSteps(LookStep(s, t, ch).0, t) < OwnSteps(s, t)
  {
    hide GoalCost, OwnSteps, Known;
    var s' := LookStep(s, t, ch).0;
    match s.pc[t]
    case SweepTake(goal, cutoff) =>
      Spends(s, t, s', SweepTake(goal, cutoff), SweepHead(goal, cutoff, ch.ids));
    case TxInsert(id, data) =>
      Spends(s, t, s', TxInsert(id, data), WriteWait(id, data));
  }

  lemma TxLookupUses(s: State, t: Tid, ch: Choice)
    requires t in s.pc && Known(s, s.pc[t]) && Room(s) && s.pc[t].TxLookup? && s.tableLock == Some(t)
    ensures OwnSteps(LookStep(s, t, ch).0, t) < OwnSteps(s, t)
  {
    hide GoalCost, OwnSteps, Known;
    var s' := LookStep(s, t, ch).0;
    match s.pc[t]
    case TxLookup(id, data) =>
      if id in s.table {
        Spends(s, t, s', TxLookup(id, data), WriteWait(id, data));
      } else {
        Spends(s, t, s', TxLookup(id, data), Idle);
      }
  }

  lemma WriteCheckUses(s: State, t: Tid, ch: Choice)
    requires t in s.pc && Known(s, s.pc[t]) && Room(s) && s.pc[t].WriteCheck? && s.tableLock == Some(t)
    ensures OwnSteps(LookStep(s, t, ch).0, t) < OwnSteps(s, t)
  {
    hide GoalCost, OwnSteps, Known;
    var s' := LookStep(s, t, ch).0;
    match s.pc[t]
    case WriteCheck(id, data) =>
      if id in s.table {
        Spends(s, t, s', WriteCheck(id, data), WriteCall(id, data));
      } else {
        Spends(s, t, s', WriteCheck(id, data), TxUnlock(id, AfterCall));
      }
  }

  lemma FinLookupUses(s: State, t: Tid, ch: Choice)
    requires t in s.pc && Known(s, s.pc[t]) && Room(s) && s.pc[t].FinLookup? && s.tableLock == Some(t)
    ensures OwnSteps(LookStep(s, t, ch).0, t) < OwnSteps(s, t)
  {
    hide GoalCost, OwnSteps, Known;
    var s' := LookStep(s, t, ch).0;
    match s.pc[t]
    case FinLookup(id, commit) =>
      if id in s.table {
        Spends(s, t, s', FinLookup(id, commit), FinWait(id, commit));
      } else {
        Spends(s, t, s', FinLookup(id, commit), Idle);
      }
  }

  lemma SweepLockedUses(s: State, t: Tid, ch: Choice)
    requires t in s.pc && Known(s, s.pc[t]) && Room(s) && s.pc[t].SweepLocked? && s.tableLock == Some(t)
    ensures OwnSteps(RemoveStep(s, t, ch).0, t) < OwnSteps(s, t)
  {
    hide GoalCost, OwnSteps, Owes, Refers;
    var s' := RemoveStep(s, t, ch).0;
    match s.pc[t]
    case SweepLocked(goal, cutoff, id, rest) =>
      if id in s.table && s.txs[id].lastUsed < cutoff {
        Spends(s, t, s', SweepLocked(goal, cutoff, id, rest), SweepCall(goal, cutoff, id, rest));
      } else {
        Spends(s, t, s', SweepLocked(goal, cutoff, id, rest), TxUnlock(id, AfterSweep(goal, cutoff, rest)));
      }
  }

  lemma CloseTakeUses(s: State, t: Tid, ch: Choice)
    requires t in s.pc && Known(s, s.pc[t]) && Room(s) && s.pc[t].CloseTake? && s.tableLock == Some(t)
    requires s.pc[t].CloseTake? ==> |ch.ids| == |s.table|
    ensures OwnSteps(RemoveStep(s, t, ch).0, t) < OwnSteps(s, t)
  {
    hide GoalCost, OwnSteps, Owes, Refers;
    var s' := RemoveStep(s, t, ch).0;
    match s.pc[t]
    case CloseTake =>
      Spends(s, t, s', CloseTake, CloseNext(ch.ids));
  }

  lemma DiscardGoes(s: State, t: Tid, ch: Choice, id: Id)
    requires t in s.pc && Known(s, s.pc[t]) && s.pc[t] == Discard(id)
    ensures GoesTo(s, t, RemoveStep(s, t, ch).0,
                   if id in s.table then Drop(s.txs[id].conn, OfTx(id, AfterCall)) else TxUnlock(id, AfterCall))
  {
    hide Owes, Refers;
  }

  lemma DiscardUses(s: State, t: Tid, ch: Choice)
    requires t in s.pc && Known(s, s.pc[t]) && Room(s) && s.pc[t].Discard? && s.tableLock == Some(t)
    ensures OwnSteps(RemoveStep(s, t, ch).0, t) < OwnSteps(s, t)
  {
    hide GoalCost, OwnSteps, Owes, Refers, RemoveStep;
    var Discard(id) := s.pc[t];
    DiscardGoes(s, t, ch, id);
    if id in s.table {
      Spends(s, t, RemoveStep(s, t, ch).0, Discard(id), Drop(s.txs[id].conn, OfTx(id, AfterCall)));
    } else {
      Spends(s, t, RemoveStep(s, t, ch).0, Discard(id), TxUnlock(id, AfterCall));
    }
  }

  lemma FinRemoveGoes(s: State, t: Tid, ch: Choice, id: Id, commit: bool)
    requires t in s.pc && Known(s, s.pc[t]) && s.pc[t] == FinRemove(id, commit)
    ensures GoesTo(s, t, RemoveStep(s, t, ch).0, if id in s.table then FinCall(id, commit) else TxUnlock(id, AfterCall))
  {
    hide Owes, Refers;
  }

  lemma FinRemoveUses(s: State, t: Tid, ch: Choice)
    requires t in s.pc && Known(s, s.pc[t]) && Room(s) && s.pc[t].FinRemove? && s.tableLock == Some(t)
    ensures OwnSteps(RemoveStep(s, t, ch).0, t) < OwnSteps(s, t)
  {
    hide GoalCost, OwnSteps, Known, RemoveStep;
    var FinRemove(id, commit) := s.pc[t];
    FinRemoveGoes(s, t, ch, id, commit);
    Spends(s, t, RemoveStep(s, t, ch).0, FinRemove(id, commit),
           if id in s.table then FinCall(id, commit) else TxUnlock(id, AfterCall));
  }

  lemma ScanUses(s: State, t: Tid)
    requires t in s.pc && Known(s, s.pc[t]) && Room(s) && s.pc[t].CkScan? && s.poolLock == Some(t)
    ensures OwnSteps(PoolStep(s, t).0, t) < OwnSteps(s, t)
  {
    hide GoalCost, OwnSteps, Known;
    var s' := PoolStep(s, t).0;
    match s.pc[t]
    case CkScan(want) =>
      hide WantCost;
      if s.idle == [] {
        Spends(s, t, s', CkScan(want), CkOpen(want));
      } else {
        Spends(s, t, s', CkScan(want), CkPing(want, s.idle[|s.idle| - 1]));
      }
  }

  lemma PushUses(s: State, t: Tid)
    requires t in s.pc && Known(s, s.pc[t]) && Room(s) && s.pc[t].Push? && s.poolLock == Some(t)
    requires s.pc[t].Push? ==> |s.idle| < s.size
    ensures OwnSteps(PoolStep(s, t).0, t) < OwnSteps(s, t)
  {
    hide GoalCost, OwnSteps, Known;
    var s' := PoolStep(s, t).0;
    match s.pc[t]
    case Push(c, owner) =>
      hide OwnerRest;
      Spends(s, t, s', Push(c, owner), Post(owner));
  }

  lemma DrainTakeUses(s: State, t: Tid)
    requires t in s.pc && Known(s, s.pc[t]) && Room(s) && s.pc[t].DrainTake? && s.poolLock == Some(t)
    ensures OwnSteps(PoolStep(s, t).0, t) < OwnSteps(s, t)
  {
    hide GoalCost, OwnSteps, Known;
    var s' := PoolStep(s, t).0;
    match s.pc[t]
    case DrainTake =>
      Spends(s, t, s', DrainTake, DrainClose(s.idle));
  }

  function AfterHead(s: State, goal: Goal, cutoff: int, todo: seq<Id>): Pc
    requires forall id | id in todo :: id in s.txs
  {
    if todo == [] then AfterSweepPc(goal)
    else if s.txs[todo[0]].lastUsed >= cutoff then SweepHead(goal, cutoff, todo[1..])
    else SweepTry(goal, cutoff, todo[0], todo[1..])
  }

  lemma SweepHeadUses(s: State, t: Tid, ch: Choice)
    requires t in s.pc && Known(s, s.pc[t]) && Room(s) && s.pc[t].SweepHead?
    ensures OwnSteps(SweepStep(s, t, ch).0, t) < OwnSteps(s, t)
  {
    var SweepHead(goal, cutoff, todo) := s.pc[t];
    assert SweepStep(s, t, ch).0 == Goto(s, t, AfterHead(s, goal, cutoff, todo));
    hide OwnSteps, Owes, GoalCost, SweepStep, Refers, RollbackEnds;
    GoalIsMore(s.size, goal);
    Spends(s, t, SweepStep(s, t, ch).0, SweepHead(goal, cutoff, todo), AfterHead(s, goal, cutoff, todo));
  }

  lemma SweepTryGoes(s: State, t: Tid, ch: Choice, goal: Goal, cutoff: int, id: Id, rest: seq<Id>)
    requires t in s.pc && Known(s, s.pc[t]) && s.pc[t] == SweepTry(goal, cutoff, id, rest)
    ensures GoesTo(s, t, SweepStep(s, t, ch).0,
                   if id in s.txLock then SweepHead(goal, cutoff, rest) else SweepLocked(goal, cutoff, id, rest))
  {
    hide Owes, Refers, RollbackEnds;
  }

  lemma SweepTryUses(s: State, t: Tid, ch: Choice)
    requires t in s.pc && Known(s, s.pc[t]) && Room(s) && s.pc[t].SweepTry?
    ensures OwnSteps(SweepStep(s, t, ch).0, t) < OwnSteps(s, t)
  {
    hide OwnSteps, Known, GoalCost, SweepStep;
    var SweepTry(goal, cutoff, id, rest) := s.pc[t];
    SweepTryGoes(s, t, ch, goal, cutoff, id, rest);
    if id in s.txLock {
      Spends(s, t, SweepStep(s, t, ch).0, SweepTry(goal, cutoff, id, rest), SweepHead(goal, cutoff, rest));
    } else {
      Spends(s, t, SweepStep(s, t, ch).0, SweepTry(goal, cutoff, id, rest), SweepLocked(goal, cutoff, id, rest));
    }
  }

  lemma SweepCallUses(s: State, t: Tid, ch: Choice)
    requires t in s.pc && Known(s, s.pc[t]) && Room(s) && s.pc[t].SweepCall?
    ensures OwnSteps(SweepStep(s, t, ch).0, t) < OwnSteps(s, t)
  {
    hide OwnSteps, GoalCost, RollbackEnds, Owes, Refers;
    var SweepCall(goal, cutoff, id, rest) := s.pc[t];
    RollbackUses(s, t, SweepCall(goal, cutoff, id, rest), id, AfterSweep(goal, cutoff, rest), ch);
  }

  lemma GoalIsMore(size: nat, goal: Goal)
    ensures forall idle: nat :: StepsLeft(size, AfterSweepPc(goal), false, idle) <= GoalCost(size, goal)
  {}

  lemma RollbackUses(s: State, t: Tid, q: Pc, id: Id, after: After, ch: Choice)
    requires t in s.pc && s.pc[t] == q && id in s.txs && Room(s)
    requires StepsLeft(s.size, q, true, |s.idle|) >= 5 + AfterCost(s.size, after)
    ensures OwnSteps(RollbackEnds(s, t, id, after, ch).0, t) < OwnSteps(s, t)
  {
    hide AfterCost, OwnSteps;
    var s' := RollbackEnds(s, t, id, after, ch).0;
    var c := s.txs[id].conn;
    if ch.ok {
      Spends(s, t, s', q, Push(c, OfTx(id, after)));
    } else {
      Spends(s, t, s', q, Drop(c, OfTx(id, after)));
    }
  }

  lemma CheckoutUses(s: State, t: Tid, ch: Choice)
    requires t in s.pc && Room(s) && (s.pc[t].CkWait? || s.pc[t].CkDead? || s.pc[t].CkFail?)
    requires s.pc[t].CkDead? ==> s.poolLock == Some(t)
    ensures OwnSteps(CheckoutStep(s, t, ch).0, t) < OwnSteps(s, t)
  {
    hide WantCost, Got;
    var s' := CheckoutStep(s, t, ch).0;
    match s.pc[t]
    case CkWait(want) =>
      if s.permits > 0 { Spends(s, t, s', CkWait(want), CkScan(want)); }
    case CkDead(want, c) =>
    case CkFail =>
  }

  lemma CandidateUses(s: State, t: Tid, ch: Choice)
    requires t in s.pc && Room(s) && (s.pc[t].CkPing? || s.pc[t].CkOpen?)
    ensures OwnSteps(CheckoutStep(s, t, ch).0, t) < OwnSteps(s, t)
  {
    hide WantCost, Got;
    var s' := CheckoutStep(s, t, ch).0;
    match s.pc[t]
    case CkPing(want, c) =>
      if ch.ok {
        GotUses(s, UnlockPool(s), t, want, c, ch);
      } else {
        Spends(s, t, s', CkPing(want, c), CkDead(want, c));
      }
    case CkOpen(want) =>
      if ch.ok { GotUses(s, SetStaged(s, ch.freshConn, []), t, want, ch.freshConn, ch); }
  }

  lemma GotUses(s: State, s1: State, t: Tid, want: Want, c: Conn, ch: Choice)
    requires t in s.pc && Room(s) && (s.pc[t] == CkPing(want, c) || s.pc[t] == CkOpen(want))
    requires s1.size == s.size && s1.idle == s.idle
    ensures OwnSteps(Got(s1, t, want, c, ch), t) < OwnSteps(s, t)
  {
    hide GoalCost, OwnSteps, Owes, Refers;
    var s' := Got(s1, t, want, c, ch);
    match want
    case ForCall(loan) => Spends(s, t, s', s.pc[t], ReadCall(loan, c));
    case ForWrite(data) => Spends(s, t, s', s.pc[t], TxInsert(ch.freshId, data));
  }

  lemma CallGoes(s: State, t: Tid, ch: Choice)
    requires t in s.pc && (s.pc[t].Prepare? || s.pc[t].ReadCall?)
    ensures s.pc[t].Prepare? ==> GoesTo(s, t, CallStep(s, t, ch).0, if ch.ok then AfterPrepare(s.pc[t].goal) else Idle)
    ensures s.pc[t].ReadCall? ==>
              var ReadCall(loan, c) := s.pc[t];
              GoesTo(s, t, CallStep(s, t, ch).0,
                     if ch.ok then Push(c, OfLoan(loan, true)) else Drop(c, OfLoan(loan, false)))
  {
    hide AfterPrepare;
  }

  lemma PrepareUses(s: State, t: Tid, ch: Choice)
    requires t in s.pc && Room(s) && s.pc[t].Prepare?
    ensures OwnSteps(CallStep(s, t, ch).0, t) < OwnSteps(s, t)
  {
    hide OwnSteps, AfterPrepare, CallStep;
    CallGoes(s, t, ch);
    var Prepare(goal) := s.pc[t];
    PreparedCost(s.size, goal);
    Spends(s, t, CallStep(s, t, ch).0, Prepare(goal), if ch.ok then AfterPrepare(goal) else Idle);
  }

  lemma ReadCallUses(s: State, t: Tid, ch: Choice)
    requires t in s.pc && Room(s) && s.pc[t].ReadCall?
    ensures OwnSteps(CallStep(s, t, ch).0, t) < OwnSteps(s, t)
  {
    hide OwnSteps, CallStep, GoalCost, AfterPrepare;
    CallGoes(s, t, ch);
    var ReadCall(loan, c) := s.pc[t];
    if ch.ok {
      Spends(s, t, CallStep(s, t, ch).0, ReadCall(loan, c), Push(c, OfLoan(loan, true)));
    } else {
      Spends(s, t, CallStep(s, t, ch).0, ReadCall(loan, c), Drop(c, OfLoan(loan, false)));
    }
  }

  lemma PreparedCost(size: nat, goal: Goal)
    ensures forall idle: nat :: StepsLeft(size, AfterPrepare(goal), false, idle) < GoalCost(size, goal)
  {
    match goal
    case GRead(n) => if n > 0 { OneLess(n, LoanCost(size)); }
    case GWrite(n, _, _) => if n > 0 { OneLess(n, LoanCost(size)); }
    case GFinish(_, _) =>
  }

  function AfterWork(p: Pc): Pc {
    match p
    case WriteWait(id, data) => WriteCheck(id, data)
    case WriteAck(id) => TxUnlock(id, AfterCall)
    case FinWait(id, commit) => FinRemove(id, commit)
    case _ => Idle
  }

  lemma WorkGoes(s: State, t: Tid, ch: Choice)
    requires t in s.pc && Known(s, s.pc[t]) && (s.pc[t].WriteWait? || s.pc[t].WriteAck? || s.pc[t].FinWait?)
    ensures GoesTo(s, t, WorkStep(s, t, ch).0, AfterWork(s.pc[t]))
  {
    hide Owes, Refers, WriteEnds, CommitEnds, RollbackEnds;
  }

  lemma WorkUses(s: State, t: Tid, ch: Choice)
    requires t in s.pc && Known(s, s.pc[t]) && Room(s) && (s.pc[t].WriteWait? || s.pc[t].WriteAck? || s.pc[t].FinWait?)
    ensures OwnSteps(WorkStep(s, t, ch).0, t) < OwnSteps(s, t)
  {
    hide GoalCost, OwnSteps, Known, WorkStep;
    WorkGoes(s, t, ch);
    Spends(s, t, WorkStep(s, t, ch).0, s.pc[t], AfterWork(s.pc[t]));
  }

  lemma WriteGoes(s: State, t: Tid, ch: Choice, id: Id, data: nat)
    requires t in s.pc && Known(s, s.pc[t]) && s.pc[t] == WriteCall(id, data)
    ensures GoesTo(s, t, WorkStep(s, t, ch).0, if ch.ok && ch.fits then WriteAck(id) else Discard(id))
  {
    hide Owes, Refers, CommitEnds, RollbackEnds;
  }

  lemma WriteUses(s: State, t: Tid, ch: Choice)
    requires t in s.pc && Known(s, s.pc[t]) && Room(s) && s.pc[t].WriteCall?
    ensures OwnSteps(WorkStep(s, t, ch).0, t) < OwnSteps(s, t)
  {
    hide GoalCost, OwnSteps, Known, WorkStep;
    var WriteCall(id, data) := s.pc[t];
    WriteGoes(s, t, ch, id, data);
    Spends(s, t, WorkStep(s, t, ch).0, WriteCall(id, data), if ch.ok && ch.fits then WriteAck(id) else Discard(id));
  }

  lemma FinishGoes(s: State, t: Tid, ch: Choice, id: Id, commit: bool)
    requires t in s.pc && Known(s, s.pc[t]) && s.pc[t] == FinCall(id, commit)
    ensures var c, owner := s.txs[id].conn, OfTx(id, AfterCall);
            GoesTo(s, t, WorkStep(s, t, ch).0, if ch.ok then Push(c, owner) else Drop(c, owner))
  {
    hide Owes, Refers, WriteEnds;
  }

  lemma FinishUses(s: State, t: Tid, id: Id, commit: bool, ch: Choice)
    requires t in s.pc && s.pc[t] == FinCall(id, commit) && Known(s, s.pc[t]) && Room(s)
    ensures OwnSteps(WorkStep(s, t, ch).0, t) < OwnSteps(s, t)
  {
    hide GoalCost, OwnSteps, Owes, Refers, WorkStep;
    FinishGoes(s, t, ch, id, commit);
    var c, owner := s.txs[id].conn, OfTx(id, AfterCall);
    if ch.ok {
      Spends(s, t, WorkStep(s, t, ch).0, FinCall(id, commit), Push(c, owner));
    } else {
      Spends(s, t, WorkStep(s, t, ch).0, FinCall(id, commit), Drop(c, owner));
    }
  }

  lemma ReleaseGoes(s: State, t: Tid)
    requires t in s.pc && Known(s, s.pc[t]) && (s.pc[t].Drop? || s.pc[t].Post?)
    ensures GoesTo(s, t, ReleaseStep(s, t).0, if s.pc[t].Drop? then Post(s.pc[t].owner) else AfterPost(s.pc[t].owner))
  {
    hide AfterPost, Owes, Refers;
  }

  lemma DropUses(s: State, t: Tid)
    requires t in s.pc && Known(s, s.pc[t]) && Room(s) && s.pc[t].Drop?
    ensures OwnSteps(ReleaseStep(s, t).0, t) < OwnSteps(s, t)
  {
    hide OwnSteps, GoalCost, OwnerRest, Known, ReleaseStep;
    ReleaseGoes(s, t);
    var Drop(c, owner) := s.pc[t];
    Spends(s, t, ReleaseStep(s, t).0, Drop(c, owner), Post(owner));
  }

  lemma PostUses(s: State, t: Tid)
    requires t in s.pc && Known(s, s.pc[t]) && Room(s) && s.pc[t].Post?
    ensures OwnSteps(ReleaseStep(s, t).0, t) < OwnSteps(s, t)
  {
    hide OwnSteps, GoalCost, Known, ReleaseStep;
    ReleaseGoes(s, t);
    var Post(owner) := s.pc[t];
    Spends(s, t, ReleaseStep(s, t).0, Post(owner), AfterPost(owner));
  }

  lemma UnlockUses(s: State, t: Tid)
    requires t in s.pc && Known(s, s.pc[t]) && Room(s) && s.pc[t].TxUnlock?
    ensures OwnSteps(ReleaseStep(s, t).0, t) < OwnSteps(s, t)
  {
    hide OwnSteps, GoalCost, Known;
    var s' := ReleaseStep(s, t).0;
    match s.pc[t]
    case TxUnlock(id, after) =>
      Spends(s, t, s', TxUnlock(id, after), Resume(after));
  }

  lemma CloseGoes(s: State, t: Tid, ch: Choice, todo: seq<Id>)
    requires t in s.pc && Known(s, s.pc[t]) && s.pc[t] == CloseNext(todo)
    ensures GoesTo(s, t, ShutdownStep(s, t, ch).0, if todo == [] then Idle else CloseCall(todo[0], todo[1..]))
  {
    hide Owes, Refers;
  }

  lemma CloseUses(s: State, t: Tid, ch: Choice)
    requires t in s.pc && Known(s, s.pc[t]) && Room(s) && s.pc[t].CloseNext?
    ensures OwnSteps(ShutdownStep(s, t, ch).0, t) < OwnSteps(s, t)
  {
    var CloseNext(todo) := s.pc[t];
    CloseGoes(s, t, ch, todo);
    hide GoalCost, OwnSteps, Owes, Refers, ShutdownStep;
    Spends(s, t, ShutdownStep(s, t, ch).0, CloseNext(todo), if todo == [] then Idle else CloseCall(todo[0], todo[1..]));
  }

  lemma CloseCallUses(s: State, t: Tid, ch: Choice)
    requires t in s.pc && Known(s, s.pc[t]) && Room(s) && s.pc[t].CloseCall?
    ensures OwnSteps(ShutdownStep(s, t, ch).0, t) < OwnSteps(s, t)
  {
    hide GoalCost, OwnSteps, Owes, Refers;
    var CloseCall(id, rest) := s.pc[t];
    RollbackUses(s, t, CloseCall(id, rest), id, AfterClose(rest), ch);
  }

  lemma DrainUses(s: State, t: Tid, ch: Choice)
    requires t in s.pc && Known(s, s.pc[t]) && Room(s) && s.pc[t].DrainClose?
    ensures OwnSteps(ShutdownStep(s, t, ch).0, t) < OwnSteps(s, t)
  {
    hide GoalCost, OwnSteps, Owes, Refers;
    var s' := ShutdownStep(s, t, ch).0;
    match s.pc[t]
    case DrainClose(cs) =>
      Spends(s, t, s', DrainClose(cs), if cs == [] then Idle else DrainClose(cs[1..]));
  }

  /** A step that only takes the lock of the next statement. */
  lemma AcquireUses(s: State, s': State, t: Tid)
    requires t in s.pc && Room(s) && s'.pc == s.pc && s'.size == s.size && s'.idle == s.idle
    requires (WantsTable(s.pc[t]) && s.tableLock != Some(t) && s'.tableLock == Some(t)) ||
             (WantsPool(s.pc[t]) && s.poolLock != Some(t) && s'.poolLock == Some(t))
    ensures OwnSteps(s', t) < OwnSteps(s, t)
  {
    hide OwnerRest, WantCost, SweepCost, CloseCost;
  }

  lemma LookUses(s: State, t: Tid, ch: Choice)
    requires Enabled(s, t, ch) && Room(s) && Looking(s.pc[t]) && s.tableLock == Some(t)
    ensures OwnSteps(LookStep(s, t, ch).0, t) < OwnSteps(s, t)
  {
    hide OwnSteps, LookStep, Room;
    var p := s.pc[t];
    if p.SweepTake? {
      EnumeratedLength(ch.ids, s.table);
      EntryUses(s, t, ch);
    } else if p.TxInsert? {
      EntryUses(s, t, ch);
    } else if p.TxLookup? {
      TxLookupUses(s, t, ch);
    } else if p.WriteCheck? {
      WriteCheckUses(s, t, ch);
    } else {
      FinLookupUses(s, t, ch);
    }
  }

  lemma RemovalUses(s: State, t: Tid, ch: Choice)
    requires Enabled(s, t, ch) && Room(s) && Removing(s.pc[t]) && s.tableLock == Some(t)
    ensures OwnSteps(RemoveStep(s, t, ch).0, t) < OwnSteps(s, t)
  {
    hide OwnSteps, RemoveStep, Room;
    var p := s.pc[t];
    if p.SweepLocked? {
      SweepLockedUses(s, t, ch);
    } else if p.Discard? {
      DiscardUses(s, t, ch);
    } else if p.FinRemove? {
      FinRemoveUses(s, t, ch);
    } else {
      EnumeratedLength(ch.ids, s.table);
      CloseTakeUses(s, t, ch);
    }
  }

  /** There is room in the idle list for the connection that is being given back. */
  lemma PushHasRoom(s: State, t: Tid)
    requires Inv(s) && t in s.pc && s.pc[t].Push?
    ensures |s.idle| < s.size
  {
    if s.pc[t].owner.OfLoan? {
      assert t in Keys(s.pc, HasSlot);
    } else {
      var id := s.pc[t].owner.id;
      EndingRole(s, t, id);
      assert id in Keys(s.txs, Unfinished);
    }
    ConnectionsAreBounded(s);
  }

  lemma EndingRole(s: State, t: Tid, id: Id)
    requires Inv(s) && t in s.pc && s.pc[t].Push? && s.pc[t].owner.OfTx? && s.pc[t].owner.id == id
    ensures id in s.txs && Unfinished(s.txs[id])
  {
    EndingRoles(s.pc[t].conn, id, s.pc[t].owner.after);
    hide InvOver;
    OwedIsDetached(s, t, id);
  }

  lemma PoolUses(s: State, t: Tid)
    requires Inv(s) && t in s.pc && Known(s, s.pc[t]) && Room(s) && WantsPool(s.pc[t]) && s.poolLock == Some(t)
    ensures OwnSteps(PoolStep(s, t).0, t) < OwnSteps(s, t)
  {
    hide InvOver, OwnSteps, PoolStep, Known, Room;
    var p := s.pc[t];
    if p.CkScan? {
      ScanUses(s, t);
    } else if p.Push? {
      PushHasRoom(s, t);
      PushUses(s, t);
    } else {
      DrainTakeUses(s, t);
    }
  }

  lemma RestUses(s: State, t: Tid, ch: Choice)
    requires Enabled(s, t, ch) && Room(s) &&
             (Calling(s.pc[t]) || Working(s.pc[t]) || Releasing(s.pc[t]) || ShuttingDown(s.pc[t]))
    requires !s.pc[t].Idle?
    ensures OwnSteps(Next(s, t, ch).0, t) < OwnSteps(s, t)
  {
    hide OwnSteps, CallStep, WorkStep, ReleaseStep, ShutdownStep, Known, Room;
    var p := s.pc[t];
    if p.Prepare? {
      PrepareUses(s, t, ch);
    } else if Calling(p) {
      ReadCallUses(s, t, ch);
    } else if p.WriteCall? {
      WriteUses(s, t, ch);
    } else if p.FinCall? {
      FinishUses(s, t, p.id, p.commit, ch);
    } else if Working(p) {
      WorkUses(s, t, ch);
    } else if p.TxUnlock? {
      UnlockUses(s, t);
    } else if p.Drop? {
      DropUses(s, t);
    } else if Releasing(p) {
      PostUses(s, t);
    } else if p.DrainClose? {
      DrainUses(s, t, ch);
    } else if p.CloseCall? {
      CloseCallUses(s, t, ch);
    } else {
      CloseUses(s, t, ch);
    }
  }

  lemma CheckingUses(s: State, t: Tid, ch: Choice)
    requires Inv(s) && Enabled(s, t, ch) && Room(s) && CheckingOut(s.pc[t])
    ensures OwnSteps(CheckoutStep(s, t, ch).0, t) < OwnSteps(s, t)
  {
    hide InvOver, OwnSteps, CheckoutStep, Known, Room;
    if s.pc[t].CkPing? || s.pc[t].CkOpen? {
      CandidateUses(s, t, ch);
    } else {
      if s.pc[t].CkDead? { PingsUnderPoolLock(s, t); }
      CheckoutUses(s, t, ch);
    }
  }

  /** Every own step of a thread inside a method brings it closer to the method's end. */
  lemma OwnStepUses(s: State, t: Tid, ch: Choice)
    requires Inv(s) && Enabled(s, t, ch) && !s.pc[t].Idle?
    ensures OwnSteps(Next(s, t, ch).0, t) < OwnSteps(s, t)
  {
    hide InvOver, OwnSteps, Known, LookStep, RemoveStep, PoolStep, SweepStep, CheckoutStep, CallStep, WorkStep,
      ReleaseStep, ShutdownStep;
    IdleFits(s);
    var p := s.pc[t];
    if (WantsTable(p) && s.tableLock != Some(t)) || (WantsPool(p) && s.poolLock != Some(t)) {
      AcquireUses(s, Next(s, t, ch).0, t);
    } else if Looking(p) {
      LookUses(s, t, ch);
    } else if Removing(p) {
      RemovalUses(s, t, ch);
    } else if WantsPool(p) {
      PoolUses(s, t);
    } else if p.SweepHead? {
      SweepHeadUses(s, t, ch);
    } else if p.SweepTry? {
      SweepTryUses(s, t, ch);
    } else if Sweeping(p) {
      SweepCallUses(s, t, ch);
    } else if CheckingOut(p) {
      CheckingUses(s, t, ch);
    } else {
      RestUses(s, t, ch);
    }
  }

  // ---- the other threads cannot add to it ----

  lemma OthersKeepOwnSteps(s: State, t: Tid, ch: Choice, u: Tid)
    requires Inv(s) && Enabled(s, t, ch) && u in s.pc && u != t
    ensures var s' := Next(s, t, ch).0; u in s'.pc && s'.pc[u] == s.pc[u] && OwnSteps(s', u) == OwnSteps(s, u)
  {
    hide InvOver, Known, LockFree, Next;
    NextLeavesOthers(s, t, ch);
    if s.pc[u].CkPing? || s.pc[u].CkDead? { PingsUnderPoolLock(s, u); }
    SameOwnSteps(s, t, Next(s, t, ch).0, u);
  }

  lemma SameOwnSteps(s: State, t: Tid, s': State, u: Tid)
    requires LeavesOthers(s, t, s') && u in s.pc && u != t
    requires (s.pc[u].CkPing? || s.pc[u].CkDead?) ==> s.poolLock == Some(u)
    ensures OwnSteps(s', u) == OwnSteps(s, u)
  {
    hide OwnerRest, WantCost, SweepCost, CloseCost, LoanRest, AfterCost, GoalCost;
  }

  /** The number of steps that `t` makes. */
  function StepsBy(ls: seq<Label>, t: Tid): nat {
    if ls == [] then 0 else StepsBy(ls[..|ls| - 1], t) + One(ls[|ls| - 1].Move? && ls[|ls| - 1].t == t)
  }

  ghost predicate Inside(ss: seq<State>, t: Tid, i: nat, j: nat) {
    j <= |ss| && forall k | i <= k < j :: t in ss[k].pc && !ss[k].pc[t].Idle?
  }

  /** From any moment on, a thread inside a method makes at most `OwnSteps` further steps
      before it leaves, whatever the others do in between. */
  lemma {:induction false} EveryCallEnds(ss: seq<State>, ls: seq<Label>, es: seq<Event>, t: Tid, i: nat, j: nat)
    requires IsRun(ss, ls, es) && i <= j < |ss| && t in ss[i].pc && Inside(ss, t, i, j)
    ensures t in ss[j].pc
    ensures StepsBy(ls[i..j], t) + OwnSteps(ss[j], t) <= OwnSteps(ss[i], t)
  {
    hide Inv, OwnSteps, Next, Known, LockFree, Possible;
    if i < j {
      var k := j - 1;
      EveryCallEnds(ss, ls, es, t, i, k);
      Reachable(ss, ls, es, k);
      assert ls[i..j][..k - i] == ls[i..k];
      assert Valid(ss[k], ls[k]) && StepOf(ss[k], ls[k]) == (ss[j], es[k]);
      match ls[k]
      case Move(u, ch) =>
        NextLeavesOthers(ss[k], u, ch);
        if u == t {
          OwnStepUses(ss[k], t, ch);
        } else {
          OthersKeepOwnSteps(ss[k], u, ch, t);
        }
      case Tick(delta) =>
        TickKeepsOwnSteps(ss[k], delta, t);
    }
  }

  lemma TickKeepsOwnSteps(s: State, delta: nat, t: Tid)
    ensures OwnSteps(s.(now := s.now + delta), t) == OwnSteps(s, t)
  {
    hide StepsLeft;
  }
}
