/** Isolation of SAP units of work over whole runs: which writes become durable, in which
    order, and which never do. */
module ProtocolHistory {
  import opened Common
  import opened ProtocolState
  import opened ProtocolSteps
  import opened ProtocolInvariant
  import opened ProtocolPreservation
  import opened ProtocolRuns
  import opened ProtocolSafety
  import opened ProtocolFootprint
  import opened ProtocolEndings

  // ---- what the events say ----

  /** The writes of `id` that were executed, in order. */
  function Executed(es: seq<Event>, id: Id): seq<Write> {
    if es == [] then [] else Executed(es[..|es| - 1], id) + Adds(es[|es| - 1], id)
  }

  /** SAP took the commit of `id`: it returned, or raised after it was applied. */
  predicate IsApplied(e: Event, id: Id) {
    e == Committed(id) || e == CommitFailed(id, true)
  }

  /** One batch per applied commit: what its transaction had executed by then. */
  function CommittedWork(es: seq<Event>): seq<seq<Write>> {
    if es == [] then []
    else
      var before, e := es[..|es| - 1], es[|es| - 1];
      CommittedWork(before) +
      match e
      case Committed(id) => [Executed(before, id)]
      case CommitFailed(id, applied) => if applied then [Executed(before, id)] else []
      case _ => []
  }

  // ---- the state agrees with the events ----

  ghost predicate History(s: State, es: seq<Event>) {
    && (forall id | id in s.txs :: s.txs[id].executed == Executed(es, id))
    && (forall id | id !in s.txs :: Executed(es, id) == [])
    && s.durable == CommittedWork(es)
  }

  lemma HistoryStep(s: State, t: Tid, s': State, e: Event, es: seq<Event>)
    requires t in s.pc && History(s, es) && TellsTheTruth(s, t, s', e)
    requires e.Wrote? ==> e.w.id in s.txs
    requires e.Committed? || e.CommitFailed? ==> e.id in s.txs
    ensures History(s', es + [e])
  {
    assert (es + [e])[..|es|] == es;
    forall id | id in s'.txs
      ensures s'.txs[id].executed == Executed(es + [e], id)
    {
      if id in s.txs {
        assert TxAdvances(s, t, s', e, id);
      } else {
        assert Executed(es + [e], id) == Executed(es, id) + [];
      }
    }
    forall id | id in s.txs
      ensures id in s'.txs
    {
      assert TxAdvances(s, t, s', e, id);
    }
  }

  /** Writes and commits are made by transactions that exist. */
  lemma SubjectsExist(s: State, t: Tid, s': State, e: Event)
    requires t in s.pc && Known(s, s.pc[t]) && Truthful(s, t, s', e)
    ensures e.Wrote? ==> s.pc[t] == WriteCall(e.w.id, e.w.data) && e.w.id in s.txs
    ensures e.Committed? || e.CommitFailed? ==> AtCommit(s.pc[t]) && e.id == s.pc[t].id && e.id in s.txs
  {
    hide Owes, Refers;
  }

  lemma HistoryGoesOn(s: State, l: Label, es: seq<Event>)
    requires Inv(s) && Valid(s, l) && History(s, es)
    ensures var (s', e) := StepOf(s, l); History(s', es + [e])
  {
    hide Inv, Next, Known, LockFree, Possible;
    match l
    case Move(t, ch) =>
      hide History;
      var (s', e) := StepOf(s, l);
      NextTellsTheTruth(s, t, ch);
      SubjectsExist(s, t, s', e);
      HistoryStep(s, t, s', e, es);
    case Tick(_) =>
      assert (es + [Silent])[..|es|] == es;
  }

  lemma HistoryStarts(s: State)
    requires Init(s)
    ensures History(s, [])
  {}

  /** In every run, SAP's durable log is exactly the sequence of applied commits, and each
      commit contributes exactly the writes that its own transaction had executed, in order,
      however the threads interleave. */
  lemma {:induction false} Isolation(ss: seq<State>, ls: seq<Label>, es: seq<Event>, n: nat)
    requires IsRun(ss, ls, es) && n < |ss|
    ensures History(ss[n], es[..n])
  {
    hide Inv, Next, Known, LockFree, Possible, History, Init;
    if n > 0 {
      var k := n - 1;
      Isolation(ss, ls, es, k);
      Reachable(ss, ls, es, k);
      assert Valid(ss[k], ls[k]) && StepOf(ss[k], ls[k]) == (ss[n], es[k]);
      assert es[..n] == es[..k] + [es[k]];
      HistoryGoesOn(ss[k], ls[k], es[..k]);
    } else {
      assert es[..0] == [];
      HistoryStarts(ss[0]);
    }
  }

  // ---- one unit of work ----

  /** The writes in `work` that `id` asked for. */
  function Of(work: seq<Write>, id: Id): seq<Write> {
    if work == [] then []
    else
      var last := work[|work| - 1];
      Of(work[..|work| - 1], id) + if last.id == id then [last] else []
  }

  function OfAll(log: seq<seq<Write>>, id: Id): seq<Write> {
    if log == [] then [] else OfAll(log[..|log| - 1], id) + Of(log[|log| - 1], id)
  }

  predicate Applied(es: seq<Event>, id: Id) {
    exists k | 0 <= k < |es| :: IsApplied(es[k], id)
  }

  lemma AppliedOnceMore(es: seq<Event>, e: Event, id: Id)
    ensures Applied(es + [e], id) <==> Applied(es, id) || IsApplied(e, id)
  {
    var es' := es + [e];
    if Applied(es, id) {
      var k :| 0 <= k < |es| && IsApplied(es[k], id);
      assert es'[k] == es[k];
    }
    assert es'[|es|] == e;
  }

  lemma {:induction false} TaggedAlike(es: seq<Event>, id: Id, other: Id)
    ensures Of(Executed(es, id), other) == if other == id then Executed(es, id) else []
  {
    if es != [] {
      var before, e := es[..|es| - 1], es[|es| - 1];
      TaggedAlike(before, id, other);
      var work := Executed(before, id);
      if Adds(e, id) == [] {
        assert work + [] == work;
      } else {
        assert (work + [e.w])[..|work|] == work;
      }
    }
  }

  lemma {:induction false} AppliedIsCounted(es: seq<Event>, id: Id)
    requires Applied(es, id)
    ensures CommitCalls(es, id) > 0
  {
    var k :| 0 <= k < |es| && IsApplied(es[k], id);
    if k < |es| - 1 {
      var before := es[..|es| - 1];
      assert IsApplied(before[k], id);
      AppliedIsCounted(before, id);
    }
  }

  /** While a thread other than a closing one finishes `id`, or after `id` is done, no write
      of `id` is executing. */
  lemma NoLateWrite(s: State, es: seq<Event>, t: Tid, id: Id)
    requires Inv(s) && Ledger(s, es, id) && t in s.pc && s.pc[t].WriteCall? && s.pc[t].id == id
    ensures id in s.txs && (Open(s.txs[id]) || (s.txs[id].stage.Detached? && s.txs[id].stage.why == ByShutdown))
  {
    hide InvOver;
    OwnJob(s, t);
    if s.txs[id].stage.Detached? && s.txs[id].stage.why != ByShutdown {
      var u := s.txs[id].stage.remover;
      LockIsExclusive(s, t, u);
    }
  }

  /** A batch extends the durable work of its own transaction only. */
  lemma BatchOf(es: seq<Event>, e: Event, id: Id)
    ensures OfAll(CommittedWork(es + [e]), id) ==
            OfAll(CommittedWork(es), id) + (if IsApplied(e, id) then Executed(es, id) else [])
  {
    assert (es + [e])[..|es|] == es;
    var log := CommittedWork(es);
    if e.Committed? || (e.CommitFailed? && e.applied) {
      TaggedAlike(es, e.id, id);
      assert (log + [Executed(es, e.id)])[..|log|] == log;
    } else {
      assert CommittedWork(es + [e]) == log + [] == log;
    }
  }

  /** The durable writes of `id` are all its executed writes, or none of them. */
  ghost predicate AllOrNothing(s: State, es: seq<Event>, id: Id) {
    OfAll(s.durable, id) == if Applied(es, id) then Executed(es, id) else []
  }

  /** What an event does to all-or-nothing, given that nothing follows an applied commit. */
  lemma AllOrNothingGrows(es: seq<Event>, e: Event, id: Id)
    requires OfAll(CommittedWork(es), id) == if Applied(es, id) then Executed(es, id) else []
    requires Applied(es, id) ==> !IsCommit(e, id) && !(e.Wrote? && e.w.id == id)
    ensures OfAll(CommittedWork(es + [e]), id) == if Applied(es + [e], id) then Executed(es + [e], id) else []
  {
    BatchOf(es, e, id);
    AppliedOnceMore(es, e, id);
    ExecutedMore(es, e, id);
    hide OfAll, CommittedWork, Executed, Applied;
  }

  lemma AllOrNothingStep(s: State, t: Tid, s': State, e: Event, es: seq<Event>, id: Id)
    requires Inv(s) && t in s.pc && Known(s, s.pc[t]) && Truthful(s, t, s', e)
    requires Ledger(s, es, id) && AllOrNothing(s, es, id) && s.durable == CommittedWork(es)
    requires s'.durable == CommittedWork(es + [e]) && Ledger(s', es + [e], id)
    ensures AllOrNothing(s', es + [e], id)
  {
    hide Inv, Known, Ledger, Truthful, OfAll, CommittedWork, Executed, Applied;
    SubjectsExist(s, t, s', e);
    if Applied(es, id) {
      AppliedIsCounted(es, id);
      if e.Wrote? && e.w.id == id { WritesBeforeCommit(s, es, t, id); }
      CommitsOnce(s', es, e, id);
    }
    AllOrNothingGrows(es, e, id);
  }

  /** A write executes only while no commit of its transaction has been asked for. */
  lemma WritesBeforeCommit(s: State, es: seq<Event>, t: Tid, id: Id)
    requires Inv(s) && Ledger(s, es, id) && t in s.pc && s.pc[t].WriteCall? && s.pc[t].id == id
    ensures CommitCalls(es, id) == 0
  {
    hide Inv;
    NoLateWrite(s, es, t, id);
  }

  lemma ExecutedMore(es: seq<Event>, e: Event, id: Id)
    ensures Executed(es + [e], id) == Executed(es, id) + Adds(e, id)
  {
    assert (es + [e])[..|es|] == es;
  }

  lemma CommitsOnce(s: State, es: seq<Event>, e: Event, id: Id)
    requires Ledger(s, es + [e], id) && CommitCalls(es, id) > 0
    ensures !IsCommit(e, id)
  {
    Appended(es, e, id);
  }

  lemma AllOrNothingAfter(s: State, l: Label, es: seq<Event>, id: Id)
    requires Inv(s) && Valid(s, l) && History(s, es) && Ledger(s, es, id) && AllOrNothing(s, es, id)
    requires var (s', e) := StepOf(s, l); History(s', es + [e]) && Ledger(s', es + [e], id)
    ensures var (s', e) := StepOf(s, l); AllOrNothing(s', es + [e], id)
  {
    hide Inv, Next, Known, LockFree, Possible, Ledger, CommittedWork, Executed;
    match l
    case Move(t, ch) =>
      hide AllOrNothing;
      NextTellsTheTruth(s, t, ch);
      AllOrNothingStep(s, t, StepOf(s, l).0, StepOf(s, l).1, es, id);
    case Tick(_) =>
      AppliedOnceMore(es, Silent, id);
      ExecutedMore(es, Silent, id);
  }

  /** In every run, the durable writes of a transaction are exactly all the writes it ever
      executed, in order, if SAP took its commit, and none otherwise. */
  lemma {:induction false} UnitOfWork(ss: seq<State>, ls: seq<Label>, es: seq<Event>, n: nat, id: Id)
    requires IsRun(ss, ls, es) && n < |ss|
    ensures AllOrNothing(ss[n], es[..n], id)
  {
    hide Inv, Next, Known, LockFree, Possible, Ledger, History, CommittedWork;
    Isolation(ss, ls, es, n);
    if n > 0 {
      hide AllOrNothing;
      var k := n - 1;
      UnitOfWork(ss, ls, es, k, id);
      Reachable(ss, ls, es, k);
      Isolation(ss, ls, es, k);
      ExactlyOneEnding(ss, ls, es, k, id);
      ExactlyOneEnding(ss, ls, es, n, id);
      assert Valid(ss[k], ls[k]) && StepOf(ss[k], ls[k]) == (ss[n], es[k]);
      assert es[..n] == es[..k] + [es[k]];
      AllOrNothingAfter(ss[k], ls[k], es[..k], id);
    } else {
      FreshLog(ss[0]);
      assert es[..0] == [];
    }
  }

  lemma FreshLog(s: State)
    requires Init(s)
    ensures s.durable == []
  {}

  /** A transaction that was rolled back, expired, discarded or shut down, or is still open,
      has no durable write. */
  lemma NeverDurable(ss: seq<State>, ls: seq<Label>, es: seq<Event>, n: nat, id: Id)
    requires IsRun(ss, ls, es) && n < |ss| && id in ss[n].txs
    requires Open(ss[n].txs[id]) || ss[n].txs[id].stage.why != ByCommit
    ensures OfAll(ss[n].durable, id) == []
  {
    UnitOfWork(ss, ls, es, n, id);
    ExactlyOneEnding(ss, ls, es, n, id);
    if Applied(es[..n], id) { AppliedIsCounted(es[..n], id); }
  }

  /** Once a commit of `id` was asked for, no write of `id` returns any more. */
  lemma NoWriteAfterCommit(ss: seq<State>, ls: seq<Label>, es: seq<Event>, k: nat, id: Id)
    requires IsRun(ss, ls, es) && k < |es| && CommitCalls(es[..k], id) > 0
    ensures Adds(es[k], id) == []
  {
    hide Inv, Next, Known, LockFree, Possible, Ledger, CommitCalls;
    Reachable(ss, ls, es, k);
    ExactlyOneEnding(ss, ls, es, k, id);
    assert Valid(ss[k], ls[k]) && StepOf(ss[k], ls[k]) == (ss[k + 1], es[k]);
    match ls[k]
    case Move(t, ch) =>
      NextTellsTheTruth(ss[k], t, ch);
      if Adds(es[k], id) != [] { WritesBeforeCommit(ss[k], es[..k], t, id); }
    case Tick(_) =>
  }

  lemma {:induction false} NothingAdded(ss: seq<State>, ls: seq<Label>, es: seq<Event>, m: nat, n: nat, id: Id)
    requires IsRun(ss, ls, es) && m < n < |ss| && IsCommit(es[m], id)
    ensures Executed(es[..n], id) == Executed(es[..m], id) && CommitCalls(es[..n], id) > 0
  {
    hide Inv, Next, Known, LockFree, Possible, Ledger;
    var k := n - 1;
    assert es[..n] == es[..k] + [es[k]];
    Appended(es[..k], es[k], id);
    ExecutedMore(es[..k], es[k], id);
    if m < k {
      NothingAdded(ss, ls, es, m, k, id);
      NoWriteAfterCommit(ss, ls, es, k, id);
    }
  }

  /** After a commit that returned, what is durable of the transaction is what it had executed
      by then, and it never executes anything more. */
  lemma CommitIsDurable(ss: seq<State>, ls: seq<Label>, es: seq<Event>, m: nat, n: nat, id: Id)
    requires IsRun(ss, ls, es) && m < n < |ss| && es[m] == Committed(id)
    ensures OfAll(ss[n].durable, id) == Executed(es[..m], id) == Executed(es[..n], id)
    ensures forall k | m <= k < |es| && es[k].Wrote? :: es[k].w.id != id
  {
    hide Executed, CommitCalls, OfAll, IsRun;
    RunLengths(ss, ls, es);
    UnitOfWork(ss, ls, es, n, id);
    assert IsApplied(es[..n][m], id);
    NothingAdded(ss, ls, es, m, n, id);
    forall k | m <= k < |es| && es[k].Wrote?
      ensures es[k].w.id != id
    {
      if m < k {
        NothingAdded(ss, ls, es, m, k, id);
        NoWriteAfterCommit(ss, ls, es, k, id);
      }
    }
  }

  lemma RunLengths(ss: seq<State>, ls: seq<Label>, es: seq<Event>)
    requires IsRun(ss, ls, es)
    ensures |es| + 1 == |ss| == |ls| + 1
  {}

  lemma {:induction false} SameConnection(ss: seq<State>, ls: seq<Label>, es: seq<Event>, m: nat, n: nat, id: Id)
    requires IsRun(ss, ls, es) && m <= n < |ss| && id in ss[m].txs
    ensures id in ss[n].txs && ss[n].txs[id].conn == ss[m].txs[id].conn
  {
    hide Inv, Next, Known, LockFree, Possible;
    if m < n {
      var k := n - 1;
      SameConnection(ss, ls, es, m, k, id);
      Reachable(ss, ls, es, k);
      assert Valid(ss[k], ls[k]) && StepOf(ss[k], ls[k]) == (ss[n], es[k]);
      match ls[k]
      case Move(t, ch) =>
        NextTellsTheTruth(ss[k], t, ch);
        assert TxAdvances(ss[k], t, ss[n], es[k], id);
      case Tick(_) =>
    }
  }

  /** The thread is at an RFC for `id`: a write, a commit or one of the rollbacks. */
  predicate CallsFor(p: Pc, id: Id) {
    (p.WriteCall? || p.FinCall? || p.SweepCall? || p.CloseCall?) && p.id == id
  }

  /** SAP's connections other than `c` have the same staged work. */
  ghost predicate OnlyOn(before: map<Conn, seq<Write>>, after: map<Conn, seq<Write>>, c: Conn) {
    forall x: Conn | x != c :: StagedOn(after, x) == StagedOn(before, x)
  }

  /** An RFC for `id` is made on its connection, and touches the work staged on no other. */
  lemma CallIsOnItsConnection(s: State, t: Tid, ch: Choice, id: Id)
    requires t in s.pc && Known(s, s.pc[t]) && CallsFor(s.pc[t], id)
    ensures id in s.txs && CallsOn(s, t) == Some(s.txs[id].conn)
    ensures OnlyOn(s.staged, Next(s, t, ch).0.staged, s.txs[id].conn)
  {
    hide Owes, Refers, OnlyOn;
    hide WorkStep, SweepStep, ShutdownStep;
    if s.pc[t].WriteCall? || s.pc[t].FinCall? {
      WorkIsOnItsConnection(s, t, ch, id);
    } else {
      RollbackIsOnItsConnection(s, t, ch, id);
    }
  }

  lemma WorkIsOnItsConnection(s: State, t: Tid, ch: Choice, id: Id)
    requires t in s.pc && Known(s, s.pc[t]) && (s.pc[t].WriteCall? || s.pc[t].FinCall?) && s.pc[t].id == id
    ensures id in s.txs && OnlyOn(s.staged, WorkStep(s, t, ch).0.staged, s.txs[id].conn)
  {
    hide Owes, Refers;
  }

  lemma RollbackIsOnItsConnection(s: State, t: Tid, ch: Choice, id: Id)
    requires t in s.pc && Known(s, s.pc[t]) && (s.pc[t].SweepCall? || s.pc[t].CloseCall?) && s.pc[t].id == id
    ensures id in s.txs
    ensures s.pc[t].SweepCall? ==> OnlyOn(s.staged, SweepStep(s, t, ch).0.staged, s.txs[id].conn)
    ensures s.pc[t].CloseCall? ==> OnlyOn(s.staged, ShutdownStep(s, t, ch).0.staged, s.txs[id].conn)
  {
    hide Owes, Refers;
  }

  /** Connection affinity: in every run, every RFC that is made for a transaction - each write,
      the commit, or the rollback of whoever ends it - is on the connection that the
      transaction was created with, and changes the staged work of no other connection. */
  lemma Affinity(ss: seq<State>, ls: seq<Label>, es: seq<Event>, m: nat, n: nat, t: Tid, ch: Choice, id: Id)
    requires IsRun(ss, ls, es) && m <= n < |ls| && id in ss[m].txs
    requires ls[n] == Move(t, ch) && t in ss[n].pc && CallsFor(ss[n].pc[t], id)
    ensures CallsOn(ss[n], t) == Some(ss[m].txs[id].conn)
    ensures OnlyOn(ss[n].staged, ss[n + 1].staged, ss[m].txs[id].conn)
  {
    hide Inv, Next, LockFree, Possible, CallsOn, CallsFor, OnlyOn;
    SameConnection(ss, ls, es, m, n, id);
    assert Valid(ss[n], ls[n]) && StepOf(ss[n], ls[n]) == (ss[n + 1], es[n]);
    hide Known;
    CallIsOnItsConnection(ss[n], t, ch, id);
  }
}
