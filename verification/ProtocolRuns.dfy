/** The invariant holds in every state of every run. */
module ProtocolRuns {
  import opened Common
  import opened ProtocolState
  import opened ProtocolSteps
  import opened ProtocolInvariant
  import opened ProtocolEffects
  import opened ProtocolPreservation

  lemma KeepLook(s: State, t: Tid, ch: Choice)
    requires Inv(s) && Enabled(s, t, ch) && Looking(s.pc[t]) && s.tableLock == Some(t)
    ensures Inv(LookStep(s, t, ch).0)
  {
    hide InvOver, RoleOf, LookStep;
    match s.pc[t]
    case TxInsert(_, _) => KeepTxInsert(s, t, ch);
    case WriteCheck(_, _) => KeepWriteCheck(s, t, ch);
    case _ => KeepLookup(s, t, ch);
  }

  lemma KeepRemoval(s: State, t: Tid, ch: Choice)
    requires Inv(s) && Enabled(s, t, ch) && Removing(s.pc[t]) && s.tableLock == Some(t)
    ensures Inv(RemoveStep(s, t, ch).0)
  {
    hide InvOver, RoleOf, RemoveStep;
    match s.pc[t]
    case SweepLocked(_, _, _, _) => KeepSweepLocked(s, t, ch);
    case Discard(_) => KeepDiscard(s, t, ch);
    case FinRemove(_, _) => KeepFinRemove(s, t, ch);
    case CloseTake => KeepCloseTake(s, t, ch);
  }

  lemma KeepPool(s: State, t: Tid, ch: Choice)
    requires Inv(s) && Enabled(s, t, ch) && WantsPool(s.pc[t]) && s.poolLock == Some(t)
    ensures Inv(PoolStep(s, t).0)
  {
    hide InvOver, RoleOf, PoolStep;
    match s.pc[t]
    case CkScan(_) => KeepCkScan(s, t, ch);
    case Push(c, OfLoan(loan, ok)) => KeepPushLoan(s, t, loan, ok, c);
    case Push(c, OfTx(id, after)) => KeepPushTx(s, t, id, after, c);
    case DrainTake => KeepDrainTake(s, t, ch);
  }

  lemma KeepSweep(s: State, t: Tid, ch: Choice)
    requires Inv(s) && Enabled(s, t, ch) && Sweeping(s.pc[t])
    ensures Inv(SweepStep(s, t, ch).0)
  {
    hide InvOver, RoleOf, SweepStep;
    match s.pc[t]
    case SweepHead(_, _, _) => KeepSweepHead(s, t, ch);
    case SweepTry(_, _, _, _) => KeepSweepTry(s, t, ch);
    case SweepCall(_, _, _, _) => KeepSweepCall(s, t, ch);
  }

  lemma KeepCheckout(s: State, t: Tid, ch: Choice)
    requires Inv(s) && Enabled(s, t, ch) && CheckingOut(s.pc[t])
    ensures Inv(CheckoutStep(s, t, ch).0)
  {
    hide InvOver, RoleOf, CheckoutStep;
    match s.pc[t]
    case CkWait(_) => KeepCkWait(s, t, ch);
    case CkPing(_, _) => KeepCkPing(s, t, ch);
    case CkDead(_, _) => KeepCkDead(s, t, ch);
    case CkOpen(_) => KeepCkOpen(s, t, ch);
    case CkFail => KeepCkFail(s, t, ch);
  }

  lemma KeepCall(s: State, t: Tid, ch: Choice)
    requires Inv(s) && Enabled(s, t, ch) && Calling(s.pc[t])
    ensures Inv(CallStep(s, t, ch).0)
  {
    hide InvOver, RoleOf, CallStep;
    match s.pc[t]
    case Idle => KeepIdle(s, t, ch);
    case Prepare(_) => KeepPrepare(s, t, ch);
    case ReadCall(_, _) => KeepReadCall(s, t, ch);
  }

  lemma KeepWork(s: State, t: Tid, ch: Choice)
    requires Inv(s) && Enabled(s, t, ch) && Working(s.pc[t])
    ensures Inv(WorkStep(s, t, ch).0)
  {
    hide InvOver, RoleOf, WorkStep;
    match s.pc[t]
    case WriteCall(_, _) => KeepWriteCall(s, t, ch);
    case WriteAck(_) => KeepWriteAck(s, t, ch);
    case FinCall(_, _) => KeepFinCall(s, t, ch);
    case _ => KeepTxWaits(s, t, ch);
  }

  lemma KeepRelease(s: State, t: Tid, ch: Choice)
    requires Inv(s) && Enabled(s, t, ch) && Releasing(s.pc[t])
    ensures Inv(ReleaseStep(s, t).0)
  {
    hide InvOver, RoleOf, ReleaseStep;
    match s.pc[t]
    case Drop(c, OfLoan(loan, ok)) => KeepDropLoan(s, t, loan, ok, c);
    case Drop(c, OfTx(id, after)) => KeepDropTx(s, t, id, after, c);
    case Post(OfLoan(loan, ok)) => KeepPostLoan(s, t, loan, ok);
    case Post(OfTx(id, after)) => KeepPostTx(s, t, id, after);
    case TxUnlock(_, _) => KeepTxUnlock(s, t, ch);
  }

  lemma KeepShutdown(s: State, t: Tid, ch: Choice)
    requires Inv(s) && Enabled(s, t, ch) && ShuttingDown(s.pc[t])
    ensures Inv(ShutdownStep(s, t, ch).0)
  {
    hide InvOver, RoleOf, ShutdownStep;
    match s.pc[t]
    case CloseNext(_) => KeepCloseNext(s, t, ch);
    case CloseCall(_, _) => KeepCloseCall(s, t, ch);
    case DrainClose(_) => KeepDrainClose(s, t, ch);
  }

  lemma Sections(p: Pc)
    ensures WantsTable(p) ==> RoleOf(p).section == InTable
    ensures WantsPool(p) ==> RoleOf(p).section == AtPool && !WantsTable(p)
  {}

  lemma KeepTableLock(s: State, t: Tid)
    requires Inv(s) && t in s.pc && WantsTable(s.pc[t]) && s.tableLock == None
    ensures Inv(s.(tableLock := Some(t)))
  {
    hide InvOver, RoleOf;
    Sections(s.pc[t]);
    TakeTableLock(s, RolesOf(s), t);
    assert RolesOf(s.(tableLock := Some(t))) == RolesOf(s);
  }

  lemma KeepPoolLock(s: State, t: Tid)
    requires Inv(s) && t in s.pc && WantsPool(s.pc[t]) && s.poolLock == None
    ensures Inv(s.(poolLock := Some(t)))
  {
    hide InvOver, RoleOf;
    Sections(s.pc[t]);
    TakePoolLock(s, RolesOf(s), t);
    assert RolesOf(s.(poolLock := Some(t))) == RolesOf(s);
  }

  lemma KeepNext(s: State, t: Tid, ch: Choice)
    requires Inv(s) && Enabled(s, t, ch)
    ensures Inv(Next(s, t, ch).0)
  {
    hide InvOver, RoleOf, LookStep, RemoveStep, PoolStep, SweepStep, CheckoutStep, CallStep, WorkStep, ReleaseStep,
      ShutdownStep;
    var p := s.pc[t];
    if WantsTable(p) && s.tableLock != Some(t) {
      KeepTableLock(s, t);
    } else if WantsPool(p) && s.poolLock != Some(t) {
      KeepPoolLock(s, t);
    } else if Looking(p) {
      KeepLook(s, t, ch);
    } else if Removing(p) {
      KeepRemoval(s, t, ch);
    } else if WantsPool(p) {
      KeepPool(s, t, ch);
    } else if Sweeping(p) {
      KeepSweep(s, t, ch);
    } else if CheckingOut(p) {
      KeepCheckout(s, t, ch);
    } else if Calling(p) {
      KeepCall(s, t, ch);
    } else if Working(p) {
      KeepWork(s, t, ch);
    } else if Releasing(p) {
      KeepRelease(s, t, ch);
    } else {
      KeepShutdown(s, t, ch);
    }
  }

  lemma StepKeeps(s: State, l: Label)
    requires Inv(s) && Valid(s, l)
    ensures Inv(StepOf(s, l).0)
  {
    hide InvOver, RoleOf, Next;
    match l
    case Move(t, ch) => KeepNext(s, t, ch);
    case Tick(delta) =>
      assert RolesOf(s.(now := s.now + delta)) == RolesOf(s);
      Unseen(s, RolesOf(s), s.pc, s.durable, s.now + delta);
  }

  lemma NobodyCounts(r: Roles)
    requires forall t | t in r :: r[t] == RoleOf(Idle)
    ensures Count(r, WithPermit) == 0 && Count(r, WithSlot) == 0
  {
    RestingRole(Idle);
    assert Keys(r, WithPermit) == {} && Keys(r, WithSlot) == {};
  }

  lemma InitInv(s: State)
    requires Init(s)
    ensures Inv(s)
  {
    hide RoleOf;
    var r := RolesOf(s);
    RestingRole(Idle);
    NobodyCounts(r);
    assert Keys(s.txs, Unfinished) == {};
  }

  /** Every state of every run satisfies the invariant. */
  lemma {:induction false} Reachable(ss: seq<State>, ls: seq<Label>, es: seq<Event>, i: nat)
    requires IsRun(ss, ls, es) && i < |ss|
    ensures Inv(ss[i])
  {
    hide InvOver, RoleOf;
    if i == 0 {
      InitInv(ss[0]);
    } else {
      Reachable(ss, ls, es, i - 1);
      StepKeeps(ss[i - 1], ls[i - 1]);
    }
  }
}
