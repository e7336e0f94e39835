/** Every call does what it was asked for: the transaction, the data and the ending that a
    thread acts on are those of the request it started with, and it acts only after the
    request was authorised. */
module ProtocolRequests {
  import opened Common
  import opened ProtocolState
  import opened ProtocolSteps

  // ---- what a program counter has to do with a request ----

  /** The same request; the number of lookups still to make may differ. */
  predicate SameRequest(a: Goal, b: Goal) {
    || (a.GRead? && b.GRead?)
    || (a.GWrite? && b.GWrite? && a.target == b.target && a.data == b.data)
    || (a.GFinish? && a == b)
  }

  /** A write request that is for `id`: it names `id`, or it names nothing. */
  predicate MayWriteTo(g: Goal, id: Id) {
    g.GWrite? && (g.target == None || g.target == Some(id))
  }

  predicate LoanServes(loan: Loan, g: Goal) {
    if loan.Final? then g.GRead? else SameRequest(loan.goal, g) && !g.GFinish?
  }

  predicate WantServes(want: Want, g: Goal) {
    if want.ForCall? then LoanServes(want.loan, g)
    else g.GWrite? && g.target == None && g.data == want.data
  }

  predicate AfterServes(id: Id, after: After, g: Goal) {
    match after
    case AfterCall => MayWriteTo(g, id) || (g.GFinish? && g.id == id)
    case AfterSweep(goal, _, _) => SameRequest(goal, g)
    case AfterClose(_) => false
  }

  predicate OwnerServes(owner: Owner, g: Goal) {
    if owner.OfLoan? then LoanServes(owner.loan, g) else AfterServes(owner.id, owner.after, g)
  }

  /** A thread at `p` can be serving the request `g`. */
  predicate Serves(p: Pc, g: Goal) {
    match p
    case SweepTake(goal, _) => SameRequest(goal, g)
    case SweepHead(goal, _, _) => SameRequest(goal, g)
    case SweepTry(goal, _, _, _) => SameRequest(goal, g)
    case SweepLocked(goal, _, _, _) => SameRequest(goal, g)
    case SweepCall(goal, _, _, _) => SameRequest(goal, g)
    case Prepare(goal) => SameRequest(goal, g) && !g.GFinish?
    case CkWait(want) => WantServes(want, g)
    case CkScan(want) => WantServes(want, g)
    case CkPing(want, _) => WantServes(want, g)
    case CkDead(want, _) => WantServes(want, g)
    case CkOpen(want) => WantServes(want, g)
    case CkFail => !g.GFinish?
    case ReadCall(loan, _) => LoanServes(loan, g)
    case TxInsert(_, data) => g.GWrite? && g.target == None && g.data == data
    case TxLookup(id, data) => g.GWrite? && g.target == Some(id) && g.data == data
    case WriteWait(id, data) => MayWriteTo(g, id) && g.data == data
    case WriteCheck(id, data) => MayWriteTo(g, id) && g.data == data
    case WriteCall(id, data) => MayWriteTo(g, id) && g.data == data
    case WriteAck(id) => MayWriteTo(g, id)
    case Discard(id) => MayWriteTo(g, id)
    case FinLookup(id, commit) => g == GFinish(id, commit)
    case FinWait(id, commit) => g == GFinish(id, commit)
    case FinRemove(id, commit) => g == GFinish(id, commit)
    case FinCall(id, commit) => g == GFinish(id, commit)
    case Push(_, owner) => OwnerServes(owner, g)
    case Drop(_, owner) => OwnerServes(owner, g)
    case Post(owner) => OwnerServes(owner, g)
    case TxUnlock(id, after) => AfterServes(id, after, g)
    case _ => false
  }

  predicate AfterIsSweep(owner: Owner) { owner.OfTx? && owner.after.AfterSweep? }

  /** The thread is in its sweep. */
  predicate InSweep(p: Pc) {
    || p.SweepTake? || p.SweepHead? || p.SweepTry? || p.SweepLocked? || p.SweepCall?
    || ((p.Push? || p.Drop? || p.Post?) && AfterIsSweep(p.owner)) || (p.TxUnlock? && p.after.AfterSweep?)
  }

  /** Policy and parameters of the request have not been accepted yet. */
  predicate Unprepared(p: Pc) { InSweep(p) || p.Prepare? }

  predicate OnLookup(owner: Owner) { owner.OfLoan? && owner.loan.Lookup? && owner.ok }

  /** What the request asks for has neither been done nor failed. */
  predicate Pending(p: Pc) {
    || InSweep(p) || p.Prepare? || p.CkWait? || p.CkScan? || p.CkPing? || p.CkDead? || p.CkOpen? || p.ReadCall?
    || ((p.Push? || p.Drop? || p.Post?) && OnLookup(p.owner))
    || p.TxInsert? || p.TxLookup? || p.WriteWait? || p.WriteCheck? || p.WriteCall?
    || p.FinLookup? || p.FinWait? || p.FinRemove?
  }

  function ReasonOf(commit: bool): Reason { if commit then ByCommit else ByRollback }

  /** The thread that takes transactions out of the table is where the reason says. */
  predicate RemovesFor(p: Pc, e: Event)
    requires e.Removed?
  {
    match e.why
    case ByCommit => p.FinRemove? && p.commit && e.ids == {p.id}
    case ByRollback => p.FinRemove? && !p.commit && e.ids == {p.id}
    case ByExpiry => p.SweepLocked? && e.ids == {p.id}
    case ByDiscard => p.Discard? && e.ids == {p.id}
    case ByShutdown => p.CloseTake?
  }

  /** Every check that a transaction is still there is for the one the thread is about. */
  predicate RefusesFor(p: Pc, id: Id) {
    (p.TxLookup? || p.WriteCheck? || p.FinLookup? || p.FinRemove?) && p.id == id
  }

  /** A request fails before it reaches a transaction: policy or parameters, no free permit, no
      connection, a lookup or a read that raised. */
  predicate Fails(permits: int, p: Pc, ch: Choice) {
    || (p.CkWait? && permits <= 0)
    || ((p.Prepare? || p.CkOpen? || p.ReadCall?) && !ch.ok)
  }

  /** The step answers the request: it fails, or is refused, or does what was asked for. */
  predicate Answers(permits: int, p: Pc, ch: Choice, e: Event, g: Goal) {
    match g
    case GRead(_) => Fails(permits, p, ch) || (p.ReadCall? && p.loan.Final? && ch.ok)
    case GWrite(_, _, data) =>
      Fails(permits, p, ch) || (e.Refused? && MayWriteTo(g, e.id)) || (p.WriteCall? && p.data == data)
    case GFinish(id, commit) => e == Refused(id) || e == Removed({id}, ReasonOf(commit))
  }

  /** The transaction that a write is about. */
  function Subject(p: Pc): Option<Id> {
    match p
    case TxInsert(id, _) => Some(id)
    case TxLookup(id, _) => Some(id)
    case WriteWait(id, _) => Some(id)
    case WriteCheck(id, _) => Some(id)
    case WriteCall(id, _) => Some(id)
    case WriteAck(id) => Some(id)
    case Discard(id) => Some(id)
    case Push(_, OfTx(id, AfterCall)) => Some(id)
    case Drop(_, OfTx(id, AfterCall)) => Some(id)
    case Post(OfTx(id, AfterCall)) => Some(id)
    case TxUnlock(id, AfterCall) => Some(id)
    case _ => None
  }

  function Lookups(g: Goal): nat { if g.GFinish? then 0 else g.lookups }

  function LoanLookups(loan: Loan): nat { if loan.Final? then 0 else Lookups(loan.goal) + 1 }

  function WantLookups(want: Want): nat { if want.ForCall? then LoanLookups(want.loan) else 0 }

  function OwnerLookups(owner: Owner): nat {
    match owner
    case OfLoan(loan, _) => if loan.Final? then 0 else Lookups(loan.goal)
    case OfTx(_, after) => if after.AfterSweep? then Lookups(after.goal) else 0
  }

  /** The catalog lookups that a pending request still has to make. */
  function LookupsLeft(p: Pc): nat {
    match p
    case SweepTake(goal, _) => Lookups(goal)
    case SweepHead(goal, _, _) => Lookups(goal)
    case SweepTry(goal, _, _, _) => Lookups(goal)
    case SweepLocked(goal, _, _, _) => Lookups(goal)
    case SweepCall(goal, _, _, _) => Lookups(goal)
    case Prepare(goal) => Lookups(goal)
    case CkWait(want) => WantLookups(want)
    case CkScan(want) => WantLookups(want)
    case CkPing(want, _) => WantLookups(want)
    case CkDead(want, _) => WantLookups(want)
    case CkOpen(want) => WantLookups(want)
    case ReadCall(loan, _) => LoanLookups(loan)
    case Push(_, owner) => OwnerLookups(owner)
    case Drop(_, owner) => OwnerLookups(owner)
    case Post(owner) => OwnerLookups(owner)
    case TxUnlock(_, AfterSweep(goal, _, _)) => Lookups(goal)
    case _ => 0
  }

  /** The step is a catalog lookup that returns. */
  predicate LooksUp(p: Pc, ch: Choice) { p.ReadCall? && p.loan.Lookup? && ch.ok }

  /** A step from `p` to `p'` goes on with the request, and answers it only as it should. */
  predicate Proceeds(permits: int, p: Pc, ch: Choice, p': Pc, e: Event, g: Goal) {
    && (p'.Idle? || Serves(p', g))
    && (Unprepared(p) && !g.GFinish? ==> Unprepared(p') || p'.Idle? || (p.Prepare? && ch.ok))
    && (Pending(p) ==> Pending(p') || Answers(permits, p, ch, e, g))
    && (Pending(p') ==> Pending(p) && LookupsLeft(p) == LookupsLeft(p') + One(LooksUp(p, ch)))
    && (Subject(p).Some? ==> Subject(p') == Subject(p) || p'.Idle?)
    && (p.CkPing? || p.CkOpen? ==> (ch.ok <==> p'.ReadCall? || p'.TxInsert?))
    && (e.Removed? ==> RemovesFor(p, e))
    && (e.Refused? ==> RefusesFor(p, e.id))
  }

  ghost predicate GoesOn(s: State, t: Tid, ch: Choice, r: (State, Event), g: Goal)
    requires t in s.pc
  {
    t in r.0.pc && Proceeds(s.permits, s.pc[t], ch, r.0.pc[t], r.1, g)
  }

  // ---- every step goes on with the request ----

  lemma EntryGoesOn(s: State, t: Tid, ch: Choice, g: Goal)
    requires t in s.pc && Known(s, s.pc[t]) && (s.pc[t].SweepTake? || s.pc[t].TxInsert?) && Serves(s.pc[t], g)
    ensures GoesOn(s, t, ch, LookStep(s, t, ch), g)
  {
    hide Owes, Refers, SetStage;
  }

  lemma TxLookupGoesOn(s: State, t: Tid, ch: Choice, g: Goal)
    requires t in s.pc && Known(s, s.pc[t]) && s.pc[t].TxLookup? && Serves(s.pc[t], g)
    ensures GoesOn(s, t, ch, LookStep(s, t, ch), g)
  {
    hide Owes, Refers, SetStage;
  }

  lemma FinLookupGoesOn(s: State, t: Tid, ch: Choice, g: Goal)
    requires t in s.pc && Known(s, s.pc[t]) && s.pc[t].FinLookup? && Serves(s.pc[t], g)
    ensures GoesOn(s, t, ch, LookStep(s, t, ch), g)
  {
    hide Owes, Refers, SetStage;
  }

  lemma CheckGoesOn(s: State, t: Tid, ch: Choice, g: Goal)
    requires t in s.pc && Known(s, s.pc[t]) && s.pc[t].WriteCheck? && Serves(s.pc[t], g)
    ensures GoesOn(s, t, ch, LookStep(s, t, ch), g)
  {
    hide Owes, Refers, SetStage;
  }

  lemma SweepLockedGoesOn(s: State, t: Tid, ch: Choice, g: Goal)
    requires t in s.pc && Known(s, s.pc[t]) && s.pc[t].SweepLocked? && Serves(s.pc[t], g)
    ensures GoesOn(s, t, ch, RemoveStep(s, t, ch), g)
  {
    hide Owes, Refers, SetStage, Shut;
  }

  lemma DiscardProceeds(permits: int, p: Pc, ch: Choice, p': Pc, e: Event, g: Goal)
    requires p.Discard? && Serves(p, g)
    requires || (e == Silent && p' == TxUnlock(p.id, AfterCall))
             || (e == Removed({p.id}, ByDiscard) && p'.Drop? && p'.owner == OfTx(p.id, AfterCall))
    ensures Proceeds(permits, p, ch, p', e, g)
  {}

  lemma DiscardGoesOn(s: State, t: Tid, ch: Choice, g: Goal)
    requires t in s.pc && Known(s, s.pc[t]) && s.pc[t].Discard? && Serves(s.pc[t], g)
    ensures GoesOn(s, t, ch, RemoveStep(s, t, ch), g)
  {
    hide Owes, Refers, SetStage, Shut, Proceeds;
    var r := RemoveStep(s, t, ch);
    DiscardProceeds(s.permits, s.pc[t], ch, r.0.pc[t], r.1, g);
  }

  lemma FinRemoveProceeds(permits: int, p: Pc, ch: Choice, p': Pc, e: Event, g: Goal)
    requires p.FinRemove? && Serves(p, g)
    requires || (e == Refused(p.id) && p' == TxUnlock(p.id, AfterCall))
             || (e == Removed({p.id}, ReasonOf(p.commit)) && p' == FinCall(p.id, p.commit))
    ensures Proceeds(permits, p, ch, p', e, g)
  {}

  lemma FinRemoveGoesOn(s: State, t: Tid, ch: Choice, g: Goal)
    requires t in s.pc && Known(s, s.pc[t]) && s.pc[t].FinRemove? && Serves(s.pc[t], g)
    ensures GoesOn(s, t, ch, RemoveStep(s, t, ch), g)
  {
    hide Owes, Refers, SetStage, Shut, Proceeds;
    var r := RemoveStep(s, t, ch);
    FinRemoveProceeds(s.permits, s.pc[t], ch, r.0.pc[t], r.1, g);
  }

  lemma ScanGoesOn(s: State, t: Tid, ch: Choice, g: Goal)
    requires t in s.pc && Known(s, s.pc[t]) && s.pc[t].CkScan? && Serves(s.pc[t], g)
    ensures GoesOn(s, t, ch, PoolStep(s, t), g)
  {
    hide Owes, Refers, SetStage, Drained;
  }

  lemma PushGoesOn(s: State, t: Tid, ch: Choice, g: Goal)
    requires t in s.pc && Known(s, s.pc[t]) && s.pc[t].Push? && Serves(s.pc[t], g)
    ensures GoesOn(s, t, ch, PoolStep(s, t), g)
  {
    hide Owes, Refers, SetStage, Drained;
  }

  lemma SweepHeadGoesOn(s: State, t: Tid, ch: Choice, g: Goal)
    requires t in s.pc && Known(s, s.pc[t]) && s.pc[t].SweepHead? && Serves(s.pc[t], g)
    ensures GoesOn(s, t, ch, SweepStep(s, t, ch), g)
  {
    hide Owes, RollbackEnds;
  }

  lemma SweepTryGoesOn(s: State, t: Tid, ch: Choice, g: Goal)
    requires t in s.pc && Known(s, s.pc[t]) && s.pc[t].SweepTry? && Serves(s.pc[t], g)
    ensures GoesOn(s, t, ch, SweepStep(s, t, ch), g)
  {
    hide Owes, Refers, RollbackEnds;
  }

  lemma SweepCallGoesOn(s: State, t: Tid, ch: Choice, g: Goal)
    requires t in s.pc && Known(s, s.pc[t]) && s.pc[t].SweepCall? && Serves(s.pc[t], g)
    ensures GoesOn(s, t, ch, SweepStep(s, t, ch), g)
  {
    hide Owes, Refers, SetStaged;
  }

  lemma PermitGoesOn(s: State, t: Tid, ch: Choice, g: Goal)
    requires t in s.pc && s.pc[t].CkWait? && Serves(s.pc[t], g)
    ensures GoesOn(s, t, ch, CheckoutStep(s, t, ch), g)
  {
    hide Got;
  }

  lemma CheckoutGoesOn(s: State, t: Tid, ch: Choice, g: Goal)
    requires t in s.pc && (s.pc[t].CkDead? || s.pc[t].CkFail?) && Serves(s.pc[t], g)
    ensures GoesOn(s, t, ch, CheckoutStep(s, t, ch), g)
  {
    hide Got, CloseConn;
  }

  lemma PingGoesOn(s: State, t: Tid, ch: Choice, g: Goal)
    requires t in s.pc && s.pc[t].CkPing? && Serves(s.pc[t], g)
    ensures GoesOn(s, t, ch, CheckoutStep(s, t, ch), g)
  {}

  lemma OpenGoesOn(s: State, t: Tid, ch: Choice, g: Goal)
    requires t in s.pc && s.pc[t].CkOpen? && Serves(s.pc[t], g)
    ensures GoesOn(s, t, ch, CheckoutStep(s, t, ch), g)
  {}

  lemma PrepareGoesOn(s: State, t: Tid, ch: Choice, g: Goal)
    requires t in s.pc && s.pc[t].Prepare? && Serves(s.pc[t], g)
    ensures GoesOn(s, t, ch, CallStep(s, t, ch), g)
  {}

  lemma ReadGoesOn(s: State, t: Tid, ch: Choice, g: Goal)
    requires t in s.pc && s.pc[t].ReadCall? && Serves(s.pc[t], g)
    ensures GoesOn(s, t, ch, CallStep(s, t, ch), g)
  {}

  lemma AckGoesOn(s: State, t: Tid, ch: Choice, g: Goal)
    requires t in s.pc && Known(s, s.pc[t]) && s.pc[t].WriteAck? && Serves(s.pc[t], g)
    ensures GoesOn(s, t, ch, WorkStep(s, t, ch), g)
  {
    hide Owes, Refers, WriteEnds, CommitEnds, RollbackEnds;
  }

  lemma WaitGoesOn(s: State, t: Tid, ch: Choice, g: Goal)
    requires t in s.pc && Known(s, s.pc[t]) && (s.pc[t].WriteWait? || s.pc[t].FinWait?) && Serves(s.pc[t], g)
    ensures GoesOn(s, t, ch, WorkStep(s, t, ch), g)
  {
    hide Owes, Refers, WriteEnds, CommitEnds, RollbackEnds;
  }

  lemma WriteGoesOn(s: State, t: Tid, ch: Choice, g: Goal)
    requires t in s.pc && Known(s, s.pc[t]) && s.pc[t].WriteCall? && Serves(s.pc[t], g)
    ensures GoesOn(s, t, ch, WorkStep(s, t, ch), g)
  {
    hide LookupsLeft, Owes, Refers, CommitEnds, RollbackEnds;
  }

  lemma FinCallProceeds(permits: int, p: Pc, ch: Choice, p': Pc, e: Event, g: Goal)
    requires p.FinCall? && Serves(p, g) && !e.Removed? && !e.Refused?
    requires (p'.Push? || p'.Drop?) && p'.owner == OfTx(p.id, AfterCall)
    ensures Proceeds(permits, p, ch, p', e, g)
  {}

  lemma FinCallGoesOn(s: State, t: Tid, ch: Choice, g: Goal)
    requires t in s.pc && Known(s, s.pc[t]) && s.pc[t].FinCall? && Serves(s.pc[t], g)
    ensures GoesOn(s, t, ch, WorkStep(s, t, ch), g)
  {
    hide Owes, Refers, WriteEnds, Proceeds;
    var r := WorkStep(s, t, ch);
    FinCallProceeds(s.permits, s.pc[t], ch, r.0.pc[t], r.1, g);
  }

  lemma PostGoesOn(s: State, t: Tid, ch: Choice, g: Goal)
    requires t in s.pc && Known(s, s.pc[t]) && s.pc[t].Post? && Serves(s.pc[t], g)
    ensures GoesOn(s, t, ch, ReleaseStep(s, t), g)
  {
    hide Owes, Refers, SetStage;
  }

  lemma DropGoesOn(s: State, t: Tid, ch: Choice, g: Goal)
    requires t in s.pc && Known(s, s.pc[t]) && s.pc[t].Drop? && Serves(s.pc[t], g)
    ensures GoesOn(s, t, ch, ReleaseStep(s, t), g)
  {
    hide Owes, Refers, SetStage;
  }

  lemma UnlockGoesOn(s: State, t: Tid, ch: Choice, g: Goal)
    requires t in s.pc && Known(s, s.pc[t]) && s.pc[t].TxUnlock? && Serves(s.pc[t], g)
    ensures GoesOn(s, t, ch, ReleaseStep(s, t), g)
  {
    hide Owes, Refers, SetStage;
  }

  lemma LockGoesOn(s: State, t: Tid, ch: Choice, r: (State, Event), g: Goal)
    requires t in s.pc && r.0.pc == s.pc && r.1 == Silent && Serves(s.pc[t], g)
    requires WantsTable(s.pc[t]) || WantsPool(s.pc[t])
    ensures GoesOn(s, t, ch, r, g)
  {}

  lemma NextGoesOn(s: State, t: Tid, ch: Choice, g: Goal)
    requires Enabled(s, t, ch) && Serves(s.pc[t], g)
    ensures GoesOn(s, t, ch, Next(s, t, ch), g)
  {
    hide Known, GoesOn;
    hide LookStep, RemoveStep, PoolStep, SweepStep, CheckoutStep, CallStep, WorkStep, ReleaseStep, ShutdownStep;
    var p := s.pc[t];
    if (WantsTable(p) && s.tableLock != Some(t)) || (WantsPool(p) && s.poolLock != Some(t)) {
      LockGoesOn(s, t, ch, Next(s, t, ch), g);
    } else if p.SweepTake? || p.TxInsert? {
      EntryGoesOn(s, t, ch, g);
    } else if p.WriteCheck? {
      CheckGoesOn(s, t, ch, g);
    } else if p.TxLookup? {
      TxLookupGoesOn(s, t, ch, g);
    } else if Looking(p) {
      FinLookupGoesOn(s, t, ch, g);
    } else if p.SweepLocked? {
      SweepLockedGoesOn(s, t, ch, g);
    } else if p.Discard? {
      DiscardGoesOn(s, t, ch, g);
    } else if Removing(p) {
      FinRemoveGoesOn(s, t, ch, g);
    } else if p.CkScan? {
      ScanGoesOn(s, t, ch, g);
    } else if WantsPool(p) {
      PushGoesOn(s, t, ch, g);
    } else if p.SweepHead? {
      SweepHeadGoesOn(s, t, ch, g);
    } else if p.SweepTry? {
      SweepTryGoesOn(s, t, ch, g);
    } else if Sweeping(p) {
      SweepCallGoesOn(s, t, ch, g);
    } else if p.CkWait? {
      PermitGoesOn(s, t, ch, g);
    } else if p.CkPing? {
      PingGoesOn(s, t, ch, g);
    } else if p.CkOpen? {
      OpenGoesOn(s, t, ch, g);
    } else if CheckingOut(p) {
      CheckoutGoesOn(s, t, ch, g);
    } else if p.Prepare? {
      PrepareGoesOn(s, t, ch, g);
    } else if Calling(p) {
      ReadGoesOn(s, t, ch, g);
    } else if p.WriteCall? {
      WriteGoesOn(s, t, ch, g);
    } else if p.FinCall? {
      FinCallGoesOn(s, t, ch, g);
    } else if p.WriteAck? {
      AckGoesOn(s, t, ch, g);
    } else if Working(p) {
      WaitGoesOn(s, t, ch, g);
    } else if p.TxUnlock? {
      UnlockGoesOn(s, t, ch, g);
    } else if p.Post? {
      PostGoesOn(s, t, ch, g);
    } else {
      DropGoesOn(s, t, ch, g);
    }
  }
}
