/** Every transaction has at most one ending: one thread takes it out of the table for one
    reason, at most one commit is asked of SAP, and its connection is given back once. */
module ProtocolEndings {
  import opened Common
  import opened ProtocolState
  import opened ProtocolSteps
  import opened ProtocolInvariant
  import opened ProtocolPreservation
  import opened ProtocolRuns
  import opened ProtocolFootprint

  /** `e` reports the outcome of the commit RFC of `id`. */
  predicate IsCommit(e: Event, id: Id) {
    e == Committed(id) || (e.CommitFailed? && e.id == id)
  }

  /** The thread took `id` out of the table and is finishing it under its lock. */
  predicate Ending(p: Pc, id: Id) {
    || (p.FinCall? && p.id == id)
    || (p.SweepCall? && p.id == id)
    || (p.Push? && p.owner.OfTx? && p.owner.id == id)
    || (p.Drop? && p.owner.OfTx? && p.owner.id == id)
  }

  predicate AtCommit(p: Pc) { p.FinCall? && p.commit }

  /** How the program counter of the moving thread agrees with the event of the step. */
  ghost predicate Accounts(p: Pc, p': Pc, e: Event) {
    && (e.Removed? && e.why != ByShutdown ==> forall id | id in e.ids :: Ending(p', id))
    && (forall id | Ending(p, id) :: Ending(p', id) || (e.Released? && e.id == id))
    && (AtCommit(p) ==> IsCommit(e, p.id) && !AtCommit(p'))
    && (AtCommit(p') ==> e == Removed({p'.id}, ByCommit))
    && (e.Removed? && e.why == ByCommit ==> AtCommit(p') && e.ids == {p'.id})
    && (e.Committed? || e.CommitFailed? ==> AtCommit(p) && e.id == p.id)
    && (e.Removed? && e.why == ByExpiry ==> p.SweepLocked? && e.ids == {p.id})
  }

  function AfterCutoff(after: After): Option<int> {
    if after.AfterSweep? then Some(after.cutoff) else None
  }

  /** The cutoff of the sweep that the thread is in. */
  function CutoffOf(p: Pc): Option<int> {
    match p
    case SweepTake(_, cutoff) => Some(cutoff)
    case SweepHead(_, cutoff, _) => Some(cutoff)
    case SweepTry(_, cutoff, _, _) => Some(cutoff)
    case SweepLocked(_, cutoff, _, _) => Some(cutoff)
    case SweepCall(_, cutoff, _, _) => Some(cutoff)
    case Push(_, OfTx(_, after)) => AfterCutoff(after)
    case Drop(_, OfTx(_, after)) => AfterCutoff(after)
    case Post(OfTx(_, after)) => AfterCutoff(after)
    case TxUnlock(_, after) => AfterCutoff(after)
    case _ => None
  }

  /** A sweep keeps the cutoff it started with. */
  predicate KeepsCutoff(s: State, p: Pc, p': Pc) {
    CutoffOf(p').Some? ==> CutoffOf(p') == CutoffOf(p) || CutoffOf(p') == Some(s.now - s.ttl)
  }

  ghost predicate Accounted(s: State, t: Tid, r: (State, Event))
    requires t in s.pc
  {
    t in r.0.pc && Accounts(s.pc[t], r.0.pc[t], r.1) && KeepsCutoff(s, s.pc[t], r.0.pc[t])
  }

  /** Neither the statement nor what follows it belongs to the end of a transaction. */
  predicate Neutral(p: Pc) {
    !p.FinCall? && !p.SweepCall? && !(p.Push? && p.owner.OfTx?) && !(p.Drop? && p.owner.OfTx?)
  }

  lemma Uneventful(p: Pc, p': Pc, e: Event)
    requires Neutral(p) && !AtCommit(p') && (e.Silent? || e.Wrote? || e.Refused?)
    ensures Accounts(p, p', e)
  {
    assert forall id :: !Ending(p, id);
    hide Neutral, Ending;
    assert !AtCommit(p);
    hide AtCommit;
  }

  lemma LookAccounted(s: State, t: Tid, ch: Choice)
    requires t in s.pc && Known(s, s.pc[t]) && Looking(s.pc[t])
    ensures Accounted(s, t, LookStep(s, t, ch))
  {
    hide Known, Accounts;
    var r := LookStep(s, t, ch);
    Uneventful(s.pc[t], r.0.pc[t], r.1);
  }

  lemma SweepLockedAccounted(s: State, t: Tid, ch: Choice)
    requires t in s.pc && Known(s, s.pc[t]) && s.pc[t].SweepLocked?
    ensures Accounted(s, t, RemoveStep(s, t, ch))
  {
    hide Owes, Refers;
  }

  lemma DiscardAccounted(s: State, t: Tid, ch: Choice)
    requires t in s.pc && Known(s, s.pc[t]) && s.pc[t].Discard?
    ensures Accounted(s, t, RemoveStep(s, t, ch))
  {
    hide Owes, Refers;
  }

  lemma FinRemoveAccounted(s: State, t: Tid, ch: Choice)
    requires t in s.pc && Known(s, s.pc[t]) && s.pc[t].FinRemove?
    ensures Accounted(s, t, RemoveStep(s, t, ch))
  {
    hide Owes, Refers;
  }

  lemma CloseTakeAccounted(s: State, t: Tid, ch: Choice)
    requires t in s.pc && Known(s, s.pc[t]) && s.pc[t].CloseTake?
    ensures Accounted(s, t, RemoveStep(s, t, ch))
  {
    hide Owes, Refers, Shut;
  }

  lemma PushAccounted(s: State, t: Tid)
    requires t in s.pc && s.pc[t].Push? && Known(s, s.pc[t])
    ensures Accounted(s, t, PoolStep(s, t))
  {
    hide Owes, Refers;
  }

  lemma PoolAccounted(s: State, t: Tid)
    requires t in s.pc && WantsPool(s.pc[t]) && Known(s, s.pc[t])
    ensures Accounted(s, t, PoolStep(s, t))
  {
    hide Known, Drained;
    if s.pc[t].Push? {
      hide PoolStep, Accounted;
      PushAccounted(s, t);
    } else {
      hide Accounts;
      var r := PoolStep(s, t);
      Uneventful(s.pc[t], r.0.pc[t], r.1);
    }
  }

  lemma SweepAccounted(s: State, t: Tid, ch: Choice)
    requires t in s.pc && Known(s, s.pc[t]) && Sweeping(s.pc[t])
    ensures Accounted(s, t, SweepStep(s, t, ch))
  {
    hide Known;
  }

  lemma CheckoutAccounted(s: State, t: Tid, ch: Choice)
    requires t in s.pc && CheckingOut(s.pc[t])
    ensures Accounted(s, t, CheckoutStep(s, t, ch))
  {
    hide Accounts;
    var r := CheckoutStep(s, t, ch);
    Uneventful(s.pc[t], r.0.pc[t], r.1);
  }

  lemma CallAccounted(s: State, t: Tid, ch: Choice)
    requires t in s.pc && Calling(s.pc[t]) && (s.pc[t].Idle? ==> CanStart(s, ch.start))
    ensures Accounted(s, t, CallStep(s, t, ch))
  {
    hide Accounts;
    var r := CallStep(s, t, ch);
    Uneventful(s.pc[t], r.0.pc[t], r.1);
  }

  lemma FinCallAccounted(s: State, t: Tid, ch: Choice)
    requires t in s.pc && Known(s, s.pc[t]) && s.pc[t].FinCall?
    ensures Accounted(s, t, WorkStep(s, t, ch))
  {
    hide Owes, Refers;
  }

  lemma WorkAccounted(s: State, t: Tid, ch: Choice)
    requires t in s.pc && Known(s, s.pc[t]) && Working(s.pc[t])
    ensures Accounted(s, t, WorkStep(s, t, ch))
  {
    hide Owes, Refers, Accounts, CommitEnds, RollbackEnds;
    if s.pc[t].FinCall? {
      FinCallAccounted(s, t, ch);
    } else {
      var r := WorkStep(s, t, ch);
      Uneventful(s.pc[t], r.0.pc[t], r.1);
    }
  }

  lemma ReleaseAccounted(s: State, t: Tid)
    requires t in s.pc && Releasing(s.pc[t]) && Known(s, s.pc[t])
    ensures Accounted(s, t, ReleaseStep(s, t))
  {
    hide Known;
  }

  lemma CloseCallAccounted(s: State, t: Tid, ch: Choice)
    requires t in s.pc && Known(s, s.pc[t]) && s.pc[t].CloseCall?
    ensures Accounted(s, t, ShutdownStep(s, t, ch))
  {
    hide Owes, Refers;
  }

  lemma ShutdownAccounted(s: State, t: Tid, ch: Choice)
    requires t in s.pc && Known(s, s.pc[t]) && ShuttingDown(s.pc[t])
    ensures Accounted(s, t, ShutdownStep(s, t, ch))
  {
    hide Owes, Refers, RollbackEnds, Accounts;
    if s.pc[t].CloseCall? {
      hide ShutdownStep, Accounted;
      CloseCallAccounted(s, t, ch);
    } else {
      var r := ShutdownStep(s, t, ch);
      Uneventful(s.pc[t], r.0.pc[t], r.1);
    }
  }

  lemma Waits(s: State, t: Tid, r: (State, Event))
    requires t in s.pc && r.0.pc == s.pc && r.1 == Silent && !AtCommit(s.pc[t])
    ensures Accounted(s, t, r)
  {}

  lemma NextAccounted(s: State, t: Tid, ch: Choice)
    requires Enabled(s, t, ch)
    ensures Accounted(s, t, Next(s, t, ch))
  {
    hide Known, Accounted;
    hide LookStep, RemoveStep, PoolStep, SweepStep, CheckoutStep, CallStep, WorkStep, ReleaseStep, ShutdownStep;
    var p := s.pc[t];
    if (WantsTable(p) && s.tableLock != Some(t)) || (WantsPool(p) && s.poolLock != Some(t)) {
      Waits(s, t, Next(s, t, ch));
    } else if Looking(p) {
      LookAccounted(s, t, ch);
    } else if p.SweepLocked? {
      SweepLockedAccounted(s, t, ch);
    } else if p.Discard? {
      DiscardAccounted(s, t, ch);
    } else if p.FinRemove? {
      FinRemoveAccounted(s, t, ch);
    } else if Removing(p) {
      CloseTakeAccounted(s, t, ch);
    } else if WantsPool(p) {
      PoolAccounted(s, t);
    } else if Sweeping(p) {
      SweepAccounted(s, t, ch);
    } else if CheckingOut(p) {
      CheckoutAccounted(s, t, ch);
    } else if Calling(p) {
      CallAccounted(s, t, ch);
    } else if Working(p) {
      WorkAccounted(s, t, ch);
    } else if Releasing(p) {
      ReleaseAccounted(s, t);
    } else {
      ShutdownAccounted(s, t, ch);
    }
  }

  // ---- the ledger of one transaction ----

  function Removals(es: seq<Event>, id: Id, why: Reason): nat {
    if es == [] then 0
    else
      var e := es[|es| - 1];
      Removals(es[..|es| - 1], id, why) + One(e.Removed? && id in e.ids && e.why == why)
  }

  function Releases(es: seq<Event>, id: Id): nat {
    if es == [] then 0
    else
      var e := es[|es| - 1];
      Releases(es[..|es| - 1], id) + One(e.Released? && e.id == id)
  }

  function CommitCalls(es: seq<Event>, id: Id): nat {
    if es == [] then 0 else CommitCalls(es[..|es| - 1], id) + One(IsCommit(es[|es| - 1], id))
  }

  /** The commit RFC of `id` is still to be made by `u`. */
  predicate CommitAhead(s: State, u: Tid, id: Id) {
    u in s.pc && s.pc[u] == FinCall(id, true)
  }

  /** What the events so far say about `id` is what its stage says. */
  ghost predicate Ledger(s: State, es: seq<Event>, id: Id) {
    if id !in s.txs || Open(s.txs[id]) then
      (forall why :: Removals(es, id, why) == 0) && Releases(es, id) == 0 && CommitCalls(es, id) == 0
    else
      var stage := s.txs[id].stage;
      && (forall why :: Removals(es, id, why) == One(why == stage.why))
      && Releases(es, id) == One(stage.Done?)
      && CommitCalls(es, id) == One(stage.why == ByCommit && !(stage.Detached? && CommitAhead(s, stage.remover, id)))
      && (stage.Detached? && stage.why != ByShutdown ==> stage.remover in s.pc && Ending(s.pc[stage.remover], id))
  }

  lemma Appended(es: seq<Event>, e: Event, id: Id)
    ensures forall why ::
              Removals(es + [e], id, why) == Removals(es, id, why) + One(e.Removed? && id in e.ids && e.why == why)
    ensures Releases(es + [e], id) == Releases(es, id) + One(e.Released? && e.id == id)
    ensures CommitCalls(es + [e], id) == CommitCalls(es, id) + One(IsCommit(e, id))
  {
    assert (es + [e])[..|es|] == es;
  }

  /** A thread at the commit RFC of `id` has detached it. */
  lemma CommitterDetached(s: State, t: Tid)
    requires Inv(s) && t in s.pc && AtCommit(s.pc[t])
    ensures s.pc[t].id in s.txs && s.txs[s.pc[t].id].stage == Detached(t, ByCommit)
  {
    hide InvOver;
    OwnJob(s, t);
  }

  /** The entry of `id` moves with the step. */
  lemma LedgerStep(s: State, t: Tid, s': State, e: Event, es: seq<Event>, id: Id)
    requires t in s.pc && Ledger(s, es, id) && LeavesOthers(s, t, s') && TellsTheTruth(s, t, s', e) &&
             Accounted(s, t, (s', e))
    requires AtCommit(s.pc[t]) ==> s.pc[t].id in s.txs && s.txs[s.pc[t].id].stage == Detached(t, ByCommit)
    ensures Ledger(s', es + [e], id)
  {
    Appended(es, e, id);
    if id !in s.txs {
      assert !IsCommit(e, id);
    } else {
      assert TxAdvances(s, t, s', e, id);
      assert EntryStep(s, t, s', e, es, id);
      hide EntryStep, LeavesOthers, TellsTheTruth, Accounted, Ledger;
      if Open(s.txs[id]) {
        OpenStep(s, t, s', e, es, id);
      } else {
        EndedStep(s, t, s', e, es, id);
      }
    }
  }

  /** What a step of `t` with event `e` does to the entry of `id`. */
  ghost predicate EntryStep(s: State, t: Tid, s': State, e: Event, es: seq<Event>, id: Id) {
    && t in s.pc && id in s.txs && id in s'.txs && LeavesOthers(s, t, s') && Truthful(s, t, s', e)
    && Advances(s.txs[id].stage, s'.txs[id].stage, id, t, e) && t in s'.pc && Accounts(s.pc[t], s'.pc[t], e)
    && (AtCommit(s.pc[t]) ==> s.pc[t].id in s.txs && s.txs[s.pc[t].id].stage == Detached(t, ByCommit))
    && (forall why ::
          Removals(es + [e], id, why) == Removals(es, id, why) + One(e.Removed? && id in e.ids && e.why == why))
    && Releases(es + [e], id) == Releases(es, id) + One(e.Released? && e.id == id)
    && CommitCalls(es + [e], id) == CommitCalls(es, id) + One(IsCommit(e, id))
  }

  lemma OpenStep(s: State, t: Tid, s': State, e: Event, es: seq<Event>, id: Id)
    requires EntryStep(s, t, s', e, es, id) && Ledger(s, es, id) && Open(s.txs[id])
    ensures Ledger(s', es + [e], id)
  {
    hide Removals, Releases, CommitCalls;
  }

  lemma EndedStep(s: State, t: Tid, s': State, e: Event, es: seq<Event>, id: Id)
    requires EntryStep(s, t, s', e, es, id) && Ledger(s, es, id) && !Open(s.txs[id])
    ensures Ledger(s', es + [e], id)
  {
    hide Removals, Releases, CommitCalls;
    assert !(e.Removed? && id in e.ids);
    if s.txs[id].stage.Detached? && s'.txs[id].stage == s.txs[id].stage {
      assert !(e.Released? && e.id == id);
    }
  }

  /** In every run and for every transaction: until it is detached, nothing has ended it;
      then exactly one removal, for one reason; by the time it is done its connection was
      given back once; and a commit was asked of SAP once if the reason was commit, and
      never otherwise. */
  lemma {:induction false} ExactlyOneEnding(ss: seq<State>, ls: seq<Label>, es: seq<Event>, n: nat, id: Id)
    requires IsRun(ss, ls, es) && n < |ss|
    ensures Ledger(ss[n], es[..n], id)
  {
    hide Inv, Next, Known, LockFree, Possible, LeavesOthers, TellsTheTruth, Accounted;
    if n > 0 {
      var k := n - 1;
      ExactlyOneEnding(ss, ls, es, k, id);
      Reachable(ss, ls, es, k);
      assert Valid(ss[k], ls[k]) && StepOf(ss[k], ls[k]) == (ss[n], es[k]);
      assert es[..n] == es[..k] + [es[k]];
      match ls[k]
      case Move(t, ch) =>
        hide Ledger;
        NextLeavesOthers(ss[k], t, ch);
        NextTellsTheTruth(ss[k], t, ch);
        NextAccounted(ss[k], t, ch);
        if AtCommit(ss[k].pc[t]) { CommitterDetached(ss[k], t); }
        LedgerStep(ss[k], t, ss[n], es[k], es[..k], id);
      case Tick(delta) =>
        Appended(es[..k], Silent, id);
    } else {
      assert es[..0] == [];
    }
  }
}
