/** How calls end: what a commit, a rollback or a write came to, where the connection goes,
    and that a sweep passes over no transaction without a reason. */
module ProtocolOutcomes {
  import opened Common
  import opened ProtocolState
  import opened ProtocolSteps
  import opened ProtocolInvariant
  import opened ProtocolPreservation
  import opened ProtocolRuns
  import opened ProtocolFootprint
  import opened ProtocolEndings
  import opened ProtocolHistory
  import opened ProtocolDeadlines
  import opened ProtocolShutdown
  import opened ProtocolRequests
  import opened ProtocolCalls

  // ---- commit and rollback ----

  lemma {:induction false} RemovalCounts(es: seq<Event>, k: nat, id: Id, why: Reason)
    requires k < |es| && es[k].Removed? && id in es[k].ids && es[k].why == why
    ensures Removals(es, id, why) > 0
  {
    if k < |es| - 1 { RemovalCounts(es[..|es| - 1], k, id, why); }
  }

  /** The thread was told that it asked for an unknown transaction. */
  ghost predicate WasRefused(ls: seq<Label>, es: seq<Event>, t: Tid, id: Id, m: nat, n: nat)
    requires n < |ls| && n < |es|
  {
    exists k | m < k <= n :: By(ls[k], t) && es[k] == Refused(id)
  }

  /** A commit or rollback that returns was refused, or has taken its transaction out of the
      table for the reason that was asked for. */
  lemma FinishTakesOrRefuses(ss: seq<State>, ls: seq<Label>, es: seq<Event>,
                             t: Tid, ch: Choice, m: nat, n: nat, id: Id, commit: bool)
    returns (k: nat)
    requires IsRun(ss, ls, es) && WholeCall(ss, ls, t, ch, m, n) && RequestOf(ch.start) == Some(GFinish(id, commit))
    ensures |ss| == |ls| + 1 == |es| + 1 && m < k <= n && By(ls[k], t)
    ensures es[k] == Refused(id) || es[k] == Removed({id}, ReasonOf(commit))
  {
    hide IsRun;
    AnsweredBeforeReturn(ss, ls, es, t, ch, m, n, GFinish(id, commit));
    k :| m < k <= n && AnswersAt(ss, ls, es, t, k, GFinish(id, commit));
  }

  /** A rollback that was asked for and not refused: no write of the transaction is ever
      durable, at any later moment. */
  lemma RollbackIsHonoured(ss: seq<State>, ls: seq<Label>, es: seq<Event>,
                           t: Tid, ch: Choice, m: nat, n: nat, id: Id, later: nat)
    requires IsRun(ss, ls, es) && WholeCall(ss, ls, t, ch, m, n) && RequestOf(ch.start) == Some(GFinish(id, false))
    requires n < later < |ss|
    ensures |ss| == |ls| + 1 == |es| + 1
    ensures WasRefused(ls, es, t, id, m, n) || OfAll(ss[later].durable, id) == []
  {
    hide IsRun, WholeCall, OfAll;
    var k := FinishTakesOrRefuses(ss, ls, es, t, ch, m, n, id, false);
    if es[k] != Refused(id) {
      RemovalCounts(es[..later], k, id, ByRollback);
      ExactlyOneEnding(ss, ls, es, later, id);
      NeverDurable(ss, ls, es, later, id);
    }
  }

  /** A thread at its commit RFC stays there until the RFC ends. */
  lemma {:induction false} CommitCallComes(ss: seq<State>, ls: seq<Label>, es: seq<Event>,
                                           t: Tid, x: nat, n: nat, id: Id)
    returns (j: nat)
    requires IsRun(ss, ls, es) && x <= n < |ls| && |ss| == |ls| + 1 == |es| + 1
    requires t in ss[x].pc && ss[x].pc[t] == FinCall(id, true) && t in ss[n + 1].pc && ss[n + 1].pc[t].Idle?
    ensures x <= j <= n && By(ls[j], t) && t in ss[j].pc && ss[j].pc[t] == FinCall(id, true)
    decreases n - x
  {
    hide IsRun;
    if By(ls[x], t) {
      j := x;
    } else {
      StaysPut(ss, ls, es, t, x);
      j := CommitCallComes(ss, ls, es, t, x + 1, n, id);
    }
  }

  /** What the commit RFC comes to is what the event says. */
  lemma CommitSpeaks(s: State, t: Tid, ch: Choice, id: Id)
    requires t in s.pc && Known(s, s.pc[t]) && s.pc[t] == FinCall(id, true)
    ensures Next(s, t, ch).1 == if ch.ok then Committed(id) else CommitFailed(id, ch.applied)
  {
    hide Owes, Refers;
  }

  lemma OneCommitOnly(ss: seq<State>, ls: seq<Label>, es: seq<Event>, i: nat, j: nat, id: Id)
    requires IsRun(ss, ls, es) && i < j < |es| && IsCommit(es[i], id)
    ensures !IsCommit(es[j], id)
  {
    hide CommitCalls, Executed, IsRun, Ledger;
    RunLengths(ss, ls, es);
    NothingAdded(ss, ls, es, i, j, id);
    ExactlyOneEnding(ss, ls, es, j + 1, id);
    assert es[..j + 1] == es[..j] + [es[j]];
    CommitsOnce(ss[j + 1], es[..j], es[j], id);
  }

  /** The one commit RFC of `id` ended with step `j`, as its choice says. */
  predicate CommitEnded(ss: seq<State>, ls: seq<Label>, es: seq<Event>, t: Tid, id: Id, j: nat)
    requires j < |ls| && j < |ss| && j < |es|
  {
    && By(ls[j], t) && t in ss[j].pc && ss[j].pc[t] == FinCall(id, true)
    && es[j] == if ls[j].ch.ok then Committed(id) else CommitFailed(id, ls[j].ch.applied)
  }

  lemma DurableAfter(ss: seq<State>, ls: seq<Label>, es: seq<Event>, j: nat, later: nat, id: Id)
    requires IsRun(ss, ls, es) && j < later < |ss| && IsCommit(es[j], id)
    ensures OfAll(ss[later].durable, id) == if IsApplied(es[j], id) then Executed(es[..j], id) else []
  {
    hide Executed, CommitCalls, OfAll, IsRun;
    RunLengths(ss, ls, es);
    UnitOfWork(ss, ls, es, later, id);
    NothingAdded(ss, ls, es, j, later, id);
    var log := es[..later];
    assert log[j] == es[j];
    if !IsApplied(es[j], id) && Applied(log, id) {
      var i :| 0 <= i < |log| && IsApplied(log[i], id);
      if i < j { OneCommitOnly(ss, ls, es, i, j, id); } else { OneCommitOnly(ss, ls, es, j, i, id); }
    }
  }

  /** A commit that was asked for and not refused: its RFC was made once, by this call, and ever
      after the durable work of the transaction is what it had executed by then if SAP took
      the commit, and nothing if not. */
  lemma CommitIsHonoured(ss: seq<State>, ls: seq<Label>, es: seq<Event>,
                         t: Tid, ch: Choice, m: nat, n: nat, id: Id, later: nat)
    requires IsRun(ss, ls, es) && WholeCall(ss, ls, t, ch, m, n) && RequestOf(ch.start) == Some(GFinish(id, true))
    requires n < later < |ss|
    ensures |ss| == |ls| + 1 == |es| + 1
    ensures WasRefused(ls, es, t, id, m, n) ||
            exists j :: m < j <= n && CommitEnded(ss, ls, es, t, id, j) &&
                        OfAll(ss[later].durable, id) ==
                        if ls[j].ch.ok || ls[j].ch.applied then Executed(es[..j], id) else []
  {
    hide IsRun, OfAll, Executed, Next, Known, Inv, LockFree, Possible, InCall;
    var k := FinishTakesOrRefuses(ss, ls, es, t, ch, m, n, id, true);
    if es[k] != Refused(id) {
      Reachable(ss, ls, es, k);
      RunStep(ss, ls, es, k);
      NextAccounted(ss[k], t, ls[k].ch);
      assert ss[k + 1].pc[t].id in {id};
      var j := CommitCallComes(ss, ls, es, t, k + 1, n, id);
      RunStep(ss, ls, es, j);
      CommitSpeaks(ss[j], t, ls[j].ch, id);
      DurableAfter(ss, ls, es, j, later, id);
      assert CommitEnded(ss, ls, es, t, id, j);
    }
  }

  // ---- writes ----

  lemma AckGoes(s: State, t: Tid, ch: Choice, id: Id)
    requires t in s.pc && Known(s, s.pc[t]) && (s.pc[t] == WriteAck(id) || s.pc[t] == TxUnlock(id, AfterCall))
    ensures var r := Next(s, t, ch);
            r.1 == Silent && t in r.0.pc && r.0.pc[t] == if s.pc[t].WriteAck? then TxUnlock(id, AfterCall) else Idle
  {
    hide Owes, Refers;
  }

  /** A write whose RFC returned a result within the limits is acknowledged, and its call ends
      no transaction. */
  lemma {:induction false} GoodWriteIsAcknowledged(ss: seq<State>, ls: seq<Label>, es: seq<Event>,
                                                   t: Tid, x: nat, n: nat, id: Id)
    requires IsRun(ss, ls, es) && x <= n < |ss| && |ss| == |ls| + 1 == |es| + 1
    requires t in ss[x].pc && ss[x].pc[t] == WriteAck(id) && forall k | x <= k < n :: Busy(ss[k], t)
    ensures forall k | x <= k < n && By(ls[k], t) :: es[k] == Silent
    ensures t in ss[n].pc
    ensures ss[n].pc[t] == WriteAck(id) ||
            (ss[n].pc[t] in {TxUnlock(id, AfterCall), Idle} &&
             exists k | x <= k < n :: Acknowledges(ss[k], ls[k], id) && ls[k].t == t)
  {
    hide IsRun, Next, Known, Inv, LockFree, Possible;
    if x < n {
      GoodWriteIsAcknowledged(ss, ls, es, t, x, n - 1, id);
      if By(ls[n - 1], t) {
        RunStep(ss, ls, es, n - 1);
        AckGoes(ss[n - 1], t, ls[n - 1].ch, id);
      } else {
        StaysPut(ss, ls, es, t, n - 1);
      }
    }
  }

  /** What a discarding thread finds: its transaction is current, or has ended. */
  lemma DiscardFinds(s: State, t: Tid, id: Id)
    requires Inv(s) && t in s.pc && s.pc[t] == Discard(id)
    ensures id in s.txs && (id in s.table || Ended(s, id))
  {
    hide InvOver;
    OwnJob(s, t);
    TableIsLive(s);
  }

  lemma DiscardEnds(s: State, t: Tid, ch: Choice, id: Id)
    requires t in s.pc && Known(s, s.pc[t]) && s.pc[t] == Discard(id) && id in s.txs && (id in s.table || Ended(s, id))
    ensures var s' := Next(s, t, ch).0; t in s'.pc && (s'.pc[t] == Discard(id) || Ended(s', id))
  {
    hide Owes, Refers;
  }

  /** A write whose RFC raised or whose result was too large ends its transaction. */
  lemma {:induction false} BadWriteEndsItsTransaction(ss: seq<State>, ls: seq<Label>, es: seq<Event>,
                                                      t: Tid, x: nat, n: nat, id: Id)
    requires IsRun(ss, ls, es) && x <= n < |ss| && |ss| == |ls| + 1 == |es| + 1
    requires t in ss[x].pc && ss[x].pc[t] == Discard(id)
    ensures t in ss[n].pc && (ss[n].pc[t] == Discard(id) || Ended(ss[n], id))
  {
    hide IsRun, Next, Known, Inv, LockFree, Possible, Ended;
    if x < n {
      BadWriteEndsItsTransaction(ss, ls, es, t, x, n - 1, id);
      RunStep(ss, ls, es, n - 1);
      Reachable(ss, ls, es, n - 1);
      ThreadStays(ss, ls, es, t, n - 1);
      if Ended(ss[n - 1], id) {
        EndedStays(ss[n - 1], ls[n - 1], id);
      } else if By(ls[n - 1], t) {
        DiscardFinds(ss[n - 1], t, id);
        DiscardEnds(ss[n - 1], t, ls[n - 1].ch, id);
      } else {
        StaysPut(ss, ls, es, t, n - 1);
      }
    }
  }

  lemma ThreadStays(ss: seq<State>, ls: seq<Label>, es: seq<Event>, t: Tid, k: nat)
    requires IsRun(ss, ls, es) && k < |ls| && |ss| == |ls| + 1 && t in ss[k].pc
    ensures t in ss[k + 1].pc
  {
    hide Inv, Next, Known, LockFree, Possible;
    Reachable(ss, ls, es, k);
    RunStep(ss, ls, es, k);
    match ls[k]
    case Move(u, ch) => NextLeavesOthers(ss[k], u, ch);
    case Tick(_) =>
  }

  lemma WriteGoes(s: State, t: Tid, ch: Choice, id: Id, data: nat)
    requires t in s.pc && Known(s, s.pc[t]) && s.pc[t] == WriteCall(id, data)
    ensures var r := Next(s, t, ch);
            && t in r.0.pc && r.0.pc[t] == (if ch.ok && ch.fits then WriteAck(id) else Discard(id))
            && r.1 == (if ch.ok then Wrote(Write(id, data)) else Silent)
  {
    hide Owes, Refers;
  }

  /** What a write call does to its transaction. If the RFC returned and the result was within
      the limits, the call counts as a use of the transaction, and from then until it returns it
      removes nothing; otherwise, by the time it returns, the transaction has ended for good. */
  lemma WriteOutcome(ss: seq<State>, ls: seq<Label>, es: seq<Event>,
                     t: Tid, ch: Choice, x: nat, n: nat, id: Id, data: nat)
    requires IsRun(ss, ls, es) && x < n < |ss| && x < |ls| && ls[x] == Move(t, ch)
    requires t in ss[x].pc && ss[x].pc[t] == WriteCall(id, data)
    requires (forall k | x < k < n :: Busy(ss[k], t)) && t in ss[n].pc && ss[n].pc[t].Idle?
    ensures |ss| == |ls| + 1 == |es| + 1
    ensures ch.ok && ch.fits ==>
              && (exists k | x < k < n :: Acknowledges(ss[k], ls[k], id) && ls[k].t == t)
              && forall k | x < k < n && By(ls[k], t) :: es[k] == Silent
    ensures !(ch.ok && ch.fits) ==> Ended(ss[n], id)
  {
    hide IsRun, Next, Known, Inv, LockFree, Possible;
    Lengths(ss, ls, es);
    RunStep(ss, ls, es, x);
    WriteGoes(ss[x], t, ch, id, data);
    if ch.ok && ch.fits {
      GoodWriteIsAcknowledged(ss, ls, es, t, x + 1, n, id);
    } else {
      BadWriteEndsItsTransaction(ss, ls, es, t, x + 1, n, id);
    }
  }

  // ---- where connections go ----

  /** The thread is at the last RFC it makes on a connection before it gives it back. */
  predicate LastCall(p: Pc) { p.ReadCall? || p.FinCall? || p.SweepCall? || p.CloseCall? }

  lemma HandsOver(s: State, t: Tid, ch: Choice, c: Conn)
    requires t in s.pc && Known(s, s.pc[t]) && LastCall(s.pc[t]) && CallsOn(s, t) == Some(c)
    ensures var p := Next(s, t, ch).0.pc;
            t in p && (if ch.ok then p[t].Push? && p[t].conn == c else p[t].Drop? && p[t].conn == c)
  {
    hide Owes, Refers;
  }

  lemma PushGives(s: State, t: Tid, ch: Choice)
    requires t in s.pc && Known(s, s.pc[t]) && s.pc[t].Push?
    ensures var s' := Next(s, t, ch).0;
            && t in s'.pc
            && (s'.pc[t] == s.pc[t] || (s'.idle == s.idle + [s.pc[t].conn] && !IsClosed(s'.place, s.pc[t].conn)))
  {
    hide Owes, Refers;
  }

  lemma DropGives(s: State, t: Tid, ch: Choice)
    requires t in s.pc && Known(s, s.pc[t]) && s.pc[t].Drop?
    ensures var s' := Next(s, t, ch).0; s'.idle == s.idle && IsClosed(s'.place, s.pc[t].conn)
  {
    hide Owes, Refers;
  }

  /** A connection goes back as its last call came out: after a read, a catalog lookup, a
      commit or a rollback (asked for, of an expired transaction or at shutdown) that returned
      it becomes the last of the idle list, after one that raised it is closed and the idle
      list stays. `n` is the next step that moves the thread on. */
  lemma GivenBackAsReturned(ss: seq<State>, ls: seq<Label>, es: seq<Event>,
                            t: Tid, ch: Choice, m: nat, n: nat, c: Conn)
    requires IsRun(ss, ls, es) && m < n < |ls| && |ss| == |ls| + 1 && ls[m] == Move(t, ch)
    requires t in ss[m].pc && LastCall(ss[m].pc[t]) && CallsOn(ss[m], t) == Some(c)
    requires t in ss[m + 1].pc && t in ss[n].pc && ss[n].pc[t] == ss[m + 1].pc[t]
    requires t in ss[n + 1].pc && ss[n + 1].pc[t] != ss[n].pc[t]
    ensures ss[n + 1].idle == ss[n].idle + (if ch.ok then [c] else [])
    ensures IsClosed(ss[n + 1].place, c) <==> !ch.ok
  {
    hide IsRun, Next, Known, Inv, LockFree, Possible, CallsOn, LastCall, IsClosed;
    RunStep(ss, ls, es, m);
    HandsOver(ss[m], t, ch, c);
    if !By(ls[n], t) { StaysPut(ss, ls, es, t, n); }
    RunStep(ss, ls, es, n);
    if ch.ok { PushGives(ss[n], t, ls[n].ch); } else { DropGives(ss[n], t, ls[n].ch); }
  }

  /** The idle list is a stack. `s` and `s'` are the states around a step of `t` that was at `p`
      and is at `p'` now. */
  ghost predicate Stacks(p: Pc, p': Pc, idle: seq<Conn>, idle': seq<Conn>) {
    || (idle' == idle && (p.CkScan? ==> p' == p || (idle == [] && p' == CkOpen(p.want))))
    || (p.Push? && idle' == idle + [p.conn])
    || (p.CkScan? && p'.CkPing? && p'.want == p.want && idle == idle' + [p'.conn])
    || (p.DrainTake? && p' == DrainClose(idle) && idle' == [])
  }

  lemma ScanStacks(s: State, t: Tid, ch: Choice)
    requires t in s.pc && Known(s, s.pc[t]) && WantsPool(s.pc[t])
    ensures var s' := Next(s, t, ch).0; t in s'.pc && Stacks(s.pc[t], s'.pc[t], s.idle, s'.idle)
  {
    hide Owes, Refers, Drained;
    if s.idle != [] { assert s.idle == s.idle[..|s.idle| - 1] + [s.idle[|s.idle| - 1]]; }
  }

  /** In every run: a connection given back goes on top of the idle list, checkout takes it from
      the top and opens a new one only if there is none, close_all() takes them all, and no
      other step touches the list. */
  lemma IdleIsAStack(ss: seq<State>, ls: seq<Label>, es: seq<Event>, n: nat)
    requires IsRun(ss, ls, es) && n < |ls| && |ss| == |ls| + 1
    ensures if ls[n].Tick? then ss[n + 1].idle == ss[n].idle
            else ls[n].t in ss[n].pc && ls[n].t in ss[n + 1].pc &&
                 Stacks(ss[n].pc[ls[n].t], ss[n + 1].pc[ls[n].t], ss[n].idle, ss[n + 1].idle)
  {
    hide Next, Known, Inv, LockFree, Possible;
    RunStep(ss, ls, es, n);
    Reachable(ss, ls, es, n);
    match ls[n]
    case Move(t, ch) =>
      ThreadStays(ss, ls, es, t, n);
      if WantsPool(ss[n].pc[t]) {
        ScanStacks(ss[n], t, ch);
      } else {
        LeavesIdle(ss[n], t, ch);
      }
    case Tick(_) =>
  }

  lemma CandidateLeavesIdle(s: State, t: Tid, ch: Choice)
    requires t in s.pc && Known(s, s.pc[t]) && InsidePool(s.pc[t])
    ensures Next(s, t, ch).0.idle == s.idle
  {
    hide Known;
  }

  lemma PoolHolder(s: State, t: Tid)
    requires Inv(s) && t in s.pc && s.poolLock == Some(t)
    ensures WantsPool(s.pc[t]) || InsidePool(s.pc[t])
  {
    assert RolesOf(s)[t].section == SectionOf(s.pc[t]);
  }

  lemma LeavesIdle(s: State, t: Tid, ch: Choice)
    requires Inv(s) && Enabled(s, t, ch) && !WantsPool(s.pc[t])
    ensures Next(s, t, ch).0.idle == s.idle
  {
    hide Inv, Next, Known, LockFree, Possible;
    if InsidePool(s.pc[t]) {
      CandidateLeavesIdle(s, t, ch);
    } else {
      NextLeavesOthers(s, t, ch);
      if s.poolLock == Some(t) { PoolHolder(s, t); }
    }
  }

  // ---- the sweep ----

  /** The candidates that the sweep of a thread at `p` has not dealt with. */
  function ToSweep(p: Pc): seq<Id> {
    match p
    case SweepHead(_, _, todo) => todo
    case SweepTry(_, _, id, rest) => [id] + rest
    case SweepLocked(_, _, id, rest) => [id] + rest
    case SweepCall(_, _, _, rest) => rest
    case Push(_, OfTx(_, AfterSweep(_, _, rest))) => rest
    case Drop(_, OfTx(_, AfterSweep(_, _, rest))) => rest
    case Post(OfTx(_, AfterSweep(_, _, rest))) => rest
    case TxUnlock(_, AfterSweep(_, _, rest)) => rest
    case _ => []
  }

  /** A sweep by `t` need not end `id`: it is not in the table, was used since the cutoff, or
      somebody else holds its lock. */
  predicate Spared(s: State, t: Tid, id: Id, cutoff: int) {
    || id !in s.table
    || (id in s.txs && s.txs[id].lastUsed >= cutoff)
    || (id in s.txLock && s.txLock[id] != t)
  }

  ghost predicate Deals(s: State, t: Tid, s': State, id: Id, cutoff: int)
    requires t in s.pc
  {
    && t in s'.pc
    && (id in ToSweep(s'.pc[t]) || Spared(s, t, id, cutoff) || Spared(s', t, id, cutoff))
    && (InSweep(s'.pc[t]) ==> CutoffOf(s'.pc[t]) == Some(cutoff))
  }

  lemma HeadDeals(s: State, t: Tid, ch: Choice, id: Id)
    requires t in s.pc && Known(s, s.pc[t]) && s.pc[t].SweepHead? && id in ToSweep(s.pc[t])
    ensures Deals(s, t, SweepStep(s, t, ch).0, id, s.pc[t].cutoff)
  {
    hide Owes, RollbackEnds;
  }

  lemma TryDeals(s: State, t: Tid, ch: Choice, id: Id)
    requires Inv(s) && t in s.pc && Known(s, s.pc[t]) && s.pc[t].SweepTry? && id in ToSweep(s.pc[t])
    ensures Deals(s, t, SweepStep(s, t, ch).0, id, s.pc[t].cutoff)
  {
    hide InvOver, Owes, Refers, RollbackEnds;
    if s.pc[t].id in s.txLock { LockHolder(s, s.pc[t].id); }
  }

  lemma LockHolder(s: State, id: Id)
    requires Inv(s) && id in s.txLock
    ensures s.txLock[id] in s.pc && Holds(s.pc[s.txLock[id]]) == Some(id)
  {
    assert RolesOf(s)[s.txLock[id]].holds == Holds(s.pc[s.txLock[id]]);
  }

  lemma LockedDeals(s: State, t: Tid, ch: Choice, id: Id)
    requires t in s.pc && Known(s, s.pc[t]) && s.pc[t].SweepLocked? && id in ToSweep(s.pc[t])
    ensures Deals(s, t, RemoveStep(s, t, ch).0, id, s.pc[t].cutoff)
  {
    hide Owes, Refers;
  }

  lemma SweepCallDeals(s: State, t: Tid, ch: Choice, id: Id)
    requires t in s.pc && Known(s, s.pc[t]) && s.pc[t].SweepCall? && id in ToSweep(s.pc[t])
    ensures Deals(s, t, SweepStep(s, t, ch).0, id, s.pc[t].cutoff)
  {
    hide Owes, Refers, Spared, SetStaged;
  }

  lemma DropDeals(s: State, t: Tid, id: Id, cutoff: int)
    requires t in s.pc && Known(s, s.pc[t]) && s.pc[t].Drop? && id in ToSweep(s.pc[t])
    requires CutoffOf(s.pc[t]) == Some(cutoff)
    ensures Deals(s, t, ReleaseStep(s, t).0, id, cutoff)
  {
    hide Owes, Refers, SetStage, Spared, CloseConn;
  }

  lemma PushDeals(s: State, t: Tid, ch: Choice, id: Id, cutoff: int)
    requires t in s.pc && Known(s, s.pc[t]) && InSweep(s.pc[t]) && id in ToSweep(s.pc[t])
    requires CutoffOf(s.pc[t]) == Some(cutoff)
    requires s.pc[t].Push?
    ensures Deals(s, t, Next(s, t, ch).0, id, cutoff)
  {
    hide Owes, Refers, SetStage, Spared;
  }

  lemma UnlockDeals(s: State, t: Tid, id: Id, cutoff: int)
    requires t in s.pc && Known(s, s.pc[t]) && (s.pc[t].Post? || s.pc[t].TxUnlock?) && id in ToSweep(s.pc[t])
    requires CutoffOf(s.pc[t]) == Some(cutoff)
    ensures Deals(s, t, ReleaseStep(s, t).0, id, cutoff)
  {
    hide Owes, Refers, SetStage, Spared;
  }

  lemma SweepPcs(p: Pc)
    ensures p.SweepHead? || p.SweepTry? || p.SweepLocked? || p.SweepCall? ==> CutoffOf(p) == Some(p.cutoff)
    ensures p.SweepTake? ==> ToSweep(p) == []
  {}

  lemma SweepDeals(s: State, t: Tid, ch: Choice, id: Id, cutoff: int)
    requires Inv(s) && Enabled(s, t, ch) && InSweep(s.pc[t]) && id in ToSweep(s.pc[t])
    requires CutoffOf(s.pc[t]) == Some(cutoff)
    ensures Deals(s, t, Next(s, t, ch).0, id, cutoff)
  {
    hide Inv, Known, LockFree, Possible, Deals, SweepStep, RemoveStep, ReleaseStep, PoolStep, ToSweep, CutoffOf;
    SweepPcs(s.pc[t]);
    if s.pc[t].SweepHead? {
      HeadDeals(s, t, ch, id);
    } else if s.pc[t].SweepTry? {
      TryDeals(s, t, ch, id);
    } else if s.pc[t].SweepLocked? && s.tableLock == Some(t) {
      LockedDeals(s, t, ch, id);
    } else if s.pc[t].SweepLocked? {
      LockDeals(s, t, Next(s, t, ch).0, id, cutoff);
    } else if s.pc[t].SweepCall? {
      SweepCallDeals(s, t, ch, id);
    } else if s.pc[t].Drop? {
      DropDeals(s, t, id, cutoff);
    } else if s.pc[t].Push? {
      PushDeals(s, t, ch, id, cutoff);
    } else {
      UnlockDeals(s, t, id, cutoff);
    }
  }

  lemma LockDeals(s: State, t: Tid, s': State, id: Id, cutoff: int)
    requires t in s.pc && s'.pc == s.pc && id in ToSweep(s.pc[t]) && CutoffOf(s.pc[t]) == Some(cutoff)
    ensures Deals(s, t, s', id, cutoff)
  {}

  lemma {:induction false} SweepRuns(ss: seq<State>, ls: seq<Label>, es: seq<Event>,
                                     t: Tid, x: nat, n: nat, id: Id, cutoff: int)
    requires IsRun(ss, ls, es) && x <= n < |ss| && |ss| == |ls| + 1 && t in ss[x].pc && InSweep(ss[x].pc[t])
    requires id in ToSweep(ss[x].pc[t]) && CutoffOf(ss[x].pc[t]) == Some(cutoff)
    requires forall k | x <= k < n :: t in ss[k].pc && InSweep(ss[k].pc[t])
    ensures t in ss[n].pc
    ensures || (id in ToSweep(ss[n].pc[t]) && (InSweep(ss[n].pc[t]) ==> CutoffOf(ss[n].pc[t]) == Some(cutoff)))
            || exists j | x <= j <= n :: Spared(ss[j], t, id, cutoff)
  {
    hide Inv, Next, Known, LockFree, Possible, IsRun, Spared, ToSweep, InSweep, CutoffOf;
    if x < n {
      SweepRuns(ss, ls, es, t, x, n - 1, id, cutoff);
      Lengths(ss, ls, es);
      Reachable(ss, ls, es, n - 1);
      RunStep(ss, ls, es, n - 1);
      ThreadStays(ss, ls, es, t, n - 1);
      if !By(ls[n - 1], t) {
        StaysPut(ss, ls, es, t, n - 1);
      } else if id in ToSweep(ss[n - 1].pc[t]) && CutoffOf(ss[n - 1].pc[t]) == Some(cutoff) {
        SweepDeals(ss[n - 1], t, ls[n - 1].ch, id, cutoff);
      }
    }
  }

  lemma SnapshotIsSwept(s: State, t: Tid, ch: Choice, id: Id)
    requires Enabled(s, t, ch) && s.pc[t].SweepTake? && s.tableLock == Some(t) && id in s.table
    ensures var s' := Next(s, t, ch).0;
            && t in s'.pc && id in ToSweep(s'.pc[t]) && InSweep(s'.pc[t])
            && CutoffOf(s'.pc[t]) == Some(s.pc[t].cutoff)
  {
    hide Known;
  }

  lemma OutsideNothingIsLeft(p: Pc)
    requires !InSweep(p)
    ensures ToSweep(p) == []
  {}

  /** A sweep misses nothing. `t` enters a method with step `m`, copies the table with step `x`,
      and its sweep is over in state `n`. Every transaction in the copy was, at some moment
      in between, no longer in the table, or used within the time to live before the entry,
      or locked by somebody else. */
  lemma SweepIsThorough(ss: seq<State>, ls: seq<Label>, es: seq<Event>,
                        t: Tid, ch: Choice, m: nat, x: nat, n: nat, id: Id)
    requires IsRun(ss, ls, es) && m < x < n < |ss| && |ss| == |ls| + 1
    requires ls[m] == Move(t, ch) && t in ss[m].pc && ss[m].pc[t].Idle?
    requires t in ss[x].pc && ss[x].pc[t] == ch.start && ch.start.SweepTake?
    requires By(ls[x], t) && ss[x].tableLock == Some(t) && id in ss[x].table
    requires forall k | x < k < n :: t in ss[k].pc && InSweep(ss[k].pc[t])
    requires t in ss[n].pc && !InSweep(ss[n].pc[t])
    ensures exists j | x <= j <= n :: Spared(ss[j], t, id, ss[m].now - ss[m].ttl)
  {
    hide Inv, Next, Known, LockFree, Possible, IsRun, Spared, ToSweep, InSweep, CutoffOf;
    Lengths(ss, ls, es);
    Enters(ss, ls, es, t, ch, m);
    RunStep(ss, ls, es, x);
    SnapshotIsSwept(ss[x], t, ls[x].ch, id);
    SweepRuns(ss, ls, es, t, x + 1, n, id, ss[m].now - ss[m].ttl);
    OutsideNothingIsLeft(ss[n].pc[t]);
  }
}
