/** Whole calls, from the step that enters a public method to the one that leaves it: what is
    done was asked for and authorised, and nobody returns before the request is answered. */
module ProtocolCalls {
  import opened Common
  import opened ProtocolState
  import opened ProtocolSteps
  import opened ProtocolInvariant
  import opened ProtocolRuns
  import opened ProtocolFootprint
  import opened ProtocolEndings
  import opened ProtocolProgress
  import opened ProtocolShutdown
  import opened ProtocolRequests

  /** What the entered method is asked for; the closing methods are asked for nothing. */
  function RequestOf(start: Pc): Option<Goal> {
    match start
    case SweepTake(goal, _) => Some(goal)
    case Prepare(goal) => Some(goal)
    case CkWait(_) => Some(GRead(0))
    case _ => None
  }

  predicate By(l: Label, t: Tid) { l.Move? && l.t == t }

  /** Step `m` of `t` enters a method, and `t` is inside it up to state `n`. */
  ghost predicate InCall(ss: seq<State>, ls: seq<Label>, t: Tid, ch: Choice, m: nat, n: nat) {
    && m < n < |ss| && m < |ls| && ls[m] == Move(t, ch)
    && t in ss[m].pc && ss[m].pc[t].Idle?
    && forall k | m < k <= n :: Busy(ss[k], t)
  }

  // ---- a call serves its request throughout ----

  lemma StartServes(s: State, start: Pc)
    requires CanStart(s, start)
    ensures RequestOf(start).Some? ==> Serves(start, RequestOf(start).value) && Pending(start) && !start.Idle?
    ensures RequestOf(start).None? ==> start.CloseTake? || start.DrainTake?
  {}

  lemma Enters(ss: seq<State>, ls: seq<Label>, es: seq<Event>, t: Tid, ch: Choice, m: nat)
    requires IsRun(ss, ls, es) && m < |ls| && ls[m] == Move(t, ch) && t in ss[m].pc && ss[m].pc[t].Idle?
    ensures t in ss[m + 1].pc && ss[m + 1].pc[t] == ch.start && CanStart(ss[m], ch.start) && es[m] == Silent
  {
    hide Known;
    assert Valid(ss[m], ls[m]) && StepOf(ss[m], ls[m]) == (ss[m + 1], es[m]);
  }

  /** A step of anybody else leaves `t` where it is. */
  lemma StaysPut(ss: seq<State>, ls: seq<Label>, es: seq<Event>, t: Tid, k: nat)
    requires IsRun(ss, ls, es) && k < |ls| && t in ss[k].pc && !By(ls[k], t)
    ensures t in ss[k + 1].pc && ss[k + 1].pc[t] == ss[k].pc[t]
  {
    hide Inv, Next, Known, LockFree, Possible;
    Reachable(ss, ls, es, k);
    assert Valid(ss[k], ls[k]) && StepOf(ss[k], ls[k]) == (ss[k + 1], es[k]);
    match ls[k]
    case Move(u, ch) => NextLeavesOthers(ss[k], u, ch);
    case Tick(_) =>
  }

  lemma OwnStep(ss: seq<State>, ls: seq<Label>, es: seq<Event>, t: Tid, k: nat, g: Goal)
    requires IsRun(ss, ls, es) && k < |ls| && t in ss[k].pc && By(ls[k], t) && Serves(ss[k].pc[t], g)
    ensures GoesOn(ss[k], t, ls[k].ch, (ss[k + 1], es[k]), g)
  {
    hide Next, Known, LockFree, Possible, GoesOn, Serves;
    assert Valid(ss[k], ls[k]) && StepOf(ss[k], ls[k]) == (ss[k + 1], es[k]);
    NextGoesOn(ss[k], t, ls[k].ch, g);
  }

  /** In every interleaving, a thread acts all through a call for the request it entered with:
      the transaction ID, commit or rollback, and the data of its program counter are those
      that were asked for. */
  lemma {:induction false} ServedThroughout(ss: seq<State>, ls: seq<Label>, es: seq<Event>,
                                            t: Tid, ch: Choice, m: nat, n: nat, g: Goal)
    requires IsRun(ss, ls, es) && InCall(ss, ls, t, ch, m, n) && RequestOf(ch.start) == Some(g)
    ensures t in ss[n].pc && Serves(ss[n].pc[t], g)
  {
    hide IsRun, Serves, Answers, LookupsLeft, Pending, Unprepared, CanStart;
    if n == m + 1 {
      Enters(ss, ls, es, t, ch, m);
      StartServes(ss[m], ch.start);
    } else {
      ServedThroughout(ss, ls, es, t, ch, m, n - 1, g);
      Lengths(ss, ls, es);
      if By(ls[n - 1], t) { OwnStep(ss, ls, es, t, n - 1, g); } else { StaysPut(ss, ls, es, t, n - 1); }
    }
  }

  lemma Lengths(ss: seq<State>, ls: seq<Label>, es: seq<Event>)
    requires IsRun(ss, ls, es)
    ensures |ss| == |ls| + 1 == |es| + 1
  {}

  /** The step with which a call goes on, for the request it entered with. */
  lemma CallGoesOn(ss: seq<State>, ls: seq<Label>, es: seq<Event>, t: Tid, ch: Choice, m: nat, n: nat, g: Goal)
    requires IsRun(ss, ls, es) && InCall(ss, ls, t, ch, m, n) && RequestOf(ch.start) == Some(g) && n < |ls|
    ensures t in ss[n].pc && t in ss[n + 1].pc && |es| == |ls| && |ss| == |ls| + 1
    ensures if By(ls[n], t) then Proceeds(ss[n].permits, ss[n].pc[t], ls[n].ch, ss[n + 1].pc[t], es[n], g)
            else ss[n + 1].pc[t] == ss[n].pc[t]
  {
    hide IsRun, Serves, Proceeds, CanStart;
    Lengths(ss, ls, es);
    ServedThroughout(ss, ls, es, t, ch, m, n, g);
    if By(ls[n], t) { OwnStep(ss, ls, es, t, n, g); } else { StaysPut(ss, ls, es, t, n); }
  }

  // ---- nobody returns before the request is answered ----

  /** Step `k` of `t` answers the request. */
  predicate AnswersAt(ss: seq<State>, ls: seq<Label>, es: seq<Event>, t: Tid, k: nat, g: Goal)
    requires k < |ls| && k < |ss| && k < |es|
  {
    By(ls[k], t) && t in ss[k].pc && Answers(ss[k].permits, ss[k].pc[t], ls[k].ch, es[k], g)
  }

  lemma {:induction false} PendingUntilAnswered(ss: seq<State>, ls: seq<Label>, es: seq<Event>,
                                                t: Tid, ch: Choice, m: nat, n: nat, g: Goal)
    requires IsRun(ss, ls, es) && InCall(ss, ls, t, ch, m, n) && RequestOf(ch.start) == Some(g)
    ensures |ss| == |ls| + 1 == |es| + 1 && t in ss[n].pc
    ensures Pending(ss[n].pc[t]) || exists k | m < k < n :: AnswersAt(ss, ls, es, t, k, g)
  {
    hide IsRun, Serves, Answers, LookupsLeft, Pending, Unprepared, CanStart;
    Lengths(ss, ls, es);
    if n == m + 1 {
      Enters(ss, ls, es, t, ch, m);
      StartServes(ss[m], ch.start);
    } else {
      PendingUntilAnswered(ss, ls, es, t, ch, m, n - 1, g);
      CallGoesOn(ss, ls, es, t, ch, m, n - 1, g);
      if Pending(ss[n - 1].pc[t]) && !Pending(ss[n].pc[t]) {
        assert AnswersAt(ss, ls, es, t, n - 1, g);
      }
    }
  }

  /** Step `n` of `t` leaves the method that was entered with step `m`. */
  ghost predicate WholeCall(ss: seq<State>, ls: seq<Label>, t: Tid, ch: Choice, m: nat, n: nat) {
    InCall(ss, ls, t, ch, m, n) && n + 1 < |ss| && t in ss[n + 1].pc && ss[n + 1].pc[t].Idle?
  }

  /** No call returns before its request is answered. A read was made, or failed: it was denied
      or had wrong parameters, no permit or no connection was to be had, or a call raised. A
      write was made, or failed in one of these ways, or its transaction is unknown. A commit or
      rollback took its transaction out of the table for that reason, or it is unknown. */
  lemma AnsweredBeforeReturn(ss: seq<State>, ls: seq<Label>, es: seq<Event>,
                             t: Tid, ch: Choice, m: nat, n: nat, g: Goal)
    requires IsRun(ss, ls, es) && WholeCall(ss, ls, t, ch, m, n) && RequestOf(ch.start) == Some(g)
    ensures |ss| == |ls| + 1 == |es| + 1
    ensures exists k | m < k <= n :: AnswersAt(ss, ls, es, t, k, g)
  {
    hide IsRun, Serves, Answers, LookupsLeft, Unprepared;
    Lengths(ss, ls, es);
    PendingUntilAnswered(ss, ls, es, t, ch, m, n, g);
    CallGoesOn(ss, ls, es, t, ch, m, n, g);
    if Pending(ss[n].pc[t]) {
      assert AnswersAt(ss, ls, es, t, n, g);
    }
  }

  // ---- nothing is done before it is authorised ----

  /** Step `k` of `t` is policy and parameter validation, and accepts the request. */
  predicate Accepts(s: State, l: Label, t: Tid) {
    By(l, t) && t in s.pc && s.pc[t].Prepare? && l.ch.ok
  }

  /** A thread gets beyond its sweep, to a permit, a connection or a transaction, only after
      policy and validation accepted the request. */
  lemma {:induction false} AcceptedFirst(ss: seq<State>, ls: seq<Label>, es: seq<Event>,
                                         t: Tid, ch: Choice, m: nat, n: nat, g: Goal)
    requires IsRun(ss, ls, es) && InCall(ss, ls, t, ch, m, n) && RequestOf(ch.start) == Some(g)
    requires !g.GFinish? && !ch.start.CkWait?
    ensures |ss| == |ls| + 1 && t in ss[n].pc
    ensures Unprepared(ss[n].pc[t]) || exists k | m < k < n :: Accepts(ss[k], ls[k], t)
  {
    hide IsRun, Serves, Answers, LookupsLeft, Pending;
    Lengths(ss, ls, es);
    if n == m + 1 {
      Enters(ss, ls, es, t, ch, m);
    } else {
      hide Unprepared, CanStart;
      AcceptedFirst(ss, ls, es, t, ch, m, n - 1, g);
      CallGoesOn(ss, ls, es, t, ch, m, n - 1, g);
      if Unprepared(ss[n - 1].pc[t]) && !Unprepared(ss[n].pc[t]) {
        assert Accepts(ss[n - 1], ls[n - 1], t);
      }
    }
  }

  // ---- catalog lookups ----

  /** The catalog lookups of `t` that returned, from step `m` up to `n`. */
  function LookupsMade(ss: seq<State>, ls: seq<Label>, t: Tid, m: nat, n: nat): nat
    requires m <= n <= |ls| && n <= |ss|
  {
    if m == n then 0
    else
      var k := n - 1;
      LookupsMade(ss, ls, t, m, k) + One(By(ls[k], t) && t in ss[k].pc && LooksUp(ss[k].pc[t], ls[k].ch))
  }

  /** As long as a request is pending, the lookups it has made and those it has yet to make are
      those that its interface needs: none is skipped and none is made twice. */
  lemma {:induction false} LookupsAreCounted(ss: seq<State>, ls: seq<Label>, es: seq<Event>,
                                             t: Tid, ch: Choice, m: nat, n: nat, g: Goal)
    requires IsRun(ss, ls, es) && InCall(ss, ls, t, ch, m, n) && RequestOf(ch.start) == Some(g)
    ensures |ss| == |ls| + 1 && t in ss[n].pc
    ensures Pending(ss[n].pc[t]) ==> LookupsMade(ss, ls, t, m, n) + LookupsLeft(ss[n].pc[t]) == Lookups(g)
  {
    hide IsRun, Serves, Answers, Unprepared;
    Lengths(ss, ls, es);
    if n == m + 1 {
      Enters(ss, ls, es, t, ch, m);
      assert LookupsMade(ss, ls, t, m, m) == 0;
    } else {
      hide Pending, LookupsLeft, LooksUp;
      LookupsAreCounted(ss, ls, es, t, ch, m, n - 1, g);
      CallGoesOn(ss, ls, es, t, ch, m, n - 1, g);
    }
  }

  /** The transaction of a write does not change: the one that was named, or made for it, is the
      one that is written to, acknowledged or discarded. */
  lemma {:induction false} SameSubject(ss: seq<State>, ls: seq<Label>, es: seq<Event>,
                                       t: Tid, ch: Choice, m: nat, k: nat, n: nat, g: Goal)
    requires IsRun(ss, ls, es) && InCall(ss, ls, t, ch, m, n) && RequestOf(ch.start) == Some(g)
    requires m < k <= n && Subject(ss[k].pc[t]).Some?
    ensures Subject(ss[n].pc[t]) == Subject(ss[k].pc[t])
  {
    hide IsRun, Serves, Answers, LookupsLeft, Pending, Unprepared, Subject;
    Lengths(ss, ls, es);
    if k < n {
      SameSubject(ss, ls, es, t, ch, m, k, n - 1, g);
      CallGoesOn(ss, ls, es, t, ch, m, n - 1, g);
      assert Busy(ss[n], t);
    }
  }

  // ---- every event was asked for ----

  /** In close() or close_all(). */
  predicate Shuts(p: Pc) { p.CloseTake? || Closing(p) || p.DrainTake? || p.DrainClose? }

  /** What a call with this request may show to an observer. */
  ghost predicate AskedFor(e: Event, request: Option<Goal>) {
    match request
    case None => e.Silent? || e.Released? || (e.Removed? && e.why == ByShutdown)
    case Some(g) =>
      match e
      case Silent => true
      case Released(_, _) => true
      case Wrote(w) => MayWriteTo(g, w.id) && g.data == w.data
      case Committed(id) => g == GFinish(id, true)
      case CommitFailed(id, _) => g == GFinish(id, true)
      case Refused(id) => MayWriteTo(g, id) || (g.GFinish? && g.id == id)
      case Removed(ids, why) =>
        match why
        case ByCommit => g.GFinish? && g.commit && ids == {g.id}
        case ByRollback => g.GFinish? && !g.commit && ids == {g.id}
        case ByExpiry => true
        case ByDiscard => exists id :: ids == {id} && MayWriteTo(g, id)
        case ByShutdown => false
  }

  lemma ServingAsks(s: State, t: Tid, ch: Choice, s': State, e: Event, g: Goal)
    requires t in s.pc && t in s'.pc && Serves(s.pc[t], g)
    requires Proceeds(s.permits, s.pc[t], ch, s'.pc[t], e, g)
    requires Truthful(s, t, s', e) && Accounts(s.pc[t], s'.pc[t], e)
    ensures AskedFor(e, Some(g))
  {
    hide Ending, Answers, LookupsLeft, Pending, Unprepared, Subject;
  }

  /** The thread stays in close() or close_all(), and shows nothing else. */
  ghost predicate ShutsOn(t: Tid, r: (State, Event)) {
    t in r.0.pc && (Shuts(r.0.pc[t]) || r.0.pc[t].Idle?) && AskedFor(r.1, None)
  }

  lemma CloseTakeSays(s: State, t: Tid, ch: Choice)
    requires t in s.pc && Known(s, s.pc[t]) && s.pc[t].CloseTake?
    ensures ShutsOn(t, Next(s, t, ch))
  {
    hide Owes, Refers, Shut;
  }

  lemma DrainTakeSays(s: State, t: Tid, ch: Choice)
    requires t in s.pc && Known(s, s.pc[t]) && s.pc[t].DrainTake?
    ensures ShutsOn(t, Next(s, t, ch))
  {
    hide Owes, Refers, Drained;
  }

  lemma EndingsSay(s: State, t: Tid, ch: Choice)
    requires t in s.pc && Known(s, s.pc[t]) && Closing(s.pc[t]) && !ShuttingDown(s.pc[t])
    ensures ShutsOn(t, Next(s, t, ch))
  {
    hide Owes, Refers, SetStage;
  }

  lemma ShutdownSays(s: State, t: Tid, ch: Choice)
    requires t in s.pc && Known(s, s.pc[t]) && ShuttingDown(s.pc[t])
    ensures ShutsOn(t, Next(s, t, ch))
  {
    hide Owes, Refers, SetStage;
  }

  lemma ClosersSay(s: State, t: Tid, ch: Choice)
    requires t in s.pc && Known(s, s.pc[t]) && Shuts(s.pc[t])
    ensures ShutsOn(t, Next(s, t, ch))
  {
    hide Known, Next, ShutsOn;
    if s.pc[t].CloseTake? {
      CloseTakeSays(s, t, ch);
    } else if s.pc[t].DrainTake? {
      DrainTakeSays(s, t, ch);
    } else if ShuttingDown(s.pc[t]) {
      ShutdownSays(s, t, ch);
    } else {
      EndingsSay(s, t, ch);
    }
  }

  lemma {:induction false} ClosersGoOn(ss: seq<State>, ls: seq<Label>, es: seq<Event>,
                                       t: Tid, ch: Choice, m: nat, n: nat)
    requires IsRun(ss, ls, es) && InCall(ss, ls, t, ch, m, n) && RequestOf(ch.start) == None
    ensures t in ss[n].pc && Shuts(ss[n].pc[t])
  {
    hide IsRun, Shuts, CanStart, Next, Known, AskedFor;
    Lengths(ss, ls, es);
    if n == m + 1 {
      Enters(ss, ls, es, t, ch, m);
      StartServes(ss[m], ch.start);
      assert Shuts(ch.start) by { ClosingStarts(ch.start); }
    } else {
      ClosersGoOn(ss, ls, es, t, ch, m, n - 1);
      if By(ls[n - 1], t) {
        RunStep(ss, ls, es, n - 1);
        ClosersSay(ss[n - 1], t, ls[n - 1].ch);
        assert Busy(ss[n], t);
      } else {
        StaysPut(ss, ls, es, t, n - 1);
      }
    }
  }

  lemma ClosingStarts(p: Pc)
    ensures p.CloseTake? || p.DrainTake? ==> Shuts(p)
  {}

  lemma RunStep(ss: seq<State>, ls: seq<Label>, es: seq<Event>, k: nat)
    requires IsRun(ss, ls, es) && k < |ls|
    ensures Valid(ss[k], ls[k]) && StepOf(ss[k], ls[k]) == (ss[k + 1], es[k])
  {}

  lemma {:induction false} ThreadsStay(ss: seq<State>, ls: seq<Label>, es: seq<Event>, t: Tid, n: nat)
    requires IsRun(ss, ls, es) && n < |ss| && t in ss[n].pc
    ensures forall k | 0 <= k <= n :: t in ss[k].pc
    ensures ss[0].pc[t].Idle?
  {
    hide Inv, Next, Known, LockFree, Possible;
    if n > 0 {
      Reachable(ss, ls, es, n - 1);
      RunStep(ss, ls, es, n - 1);
      match ls[n - 1] {
        case Move(u, ch) => NextLeavesOthers(ss[n - 1], u, ch);
        case Tick(_) =>
      }
      ThreadsStay(ss, ls, es, t, n - 1);
    }
  }

  /** Whoever is inside a method entered it, with a request, and has been inside since. */
  lemma {:induction false} InsideSinceEntry(ss: seq<State>, ls: seq<Label>, es: seq<Event>, t: Tid, n: nat)
    returns (m: nat, ch: Choice)
    requires IsRun(ss, ls, es) && n < |ss| && Busy(ss[n], t)
    ensures InCall(ss, ls, t, ch, m, n)
  {
    hide IsRun;
    Lengths(ss, ls, es);
    ThreadsStay(ss, ls, es, t, n);
    if Busy(ss[n - 1], t) {
      m, ch := InsideSinceEntry(ss, ls, es, t, n - 1);
    } else {
      m := n - 1;
      if !By(ls[m], t) { StaysPut(ss, ls, es, t, m); }
      ch := ls[m].ch;
    }
  }

  /** A write, a commit or a rollback begins with a sweep, whose cutoff is the moment of entry
      less the time to live. */
  predicate BeginsWithSweep(s: State, start: Pc) {
    RequestOf(start).Some? && !RequestOf(start).value.GRead? ==>
      start == SweepTake(RequestOf(start).value, s.now - s.ttl)
  }

  /** Step `n`, by a thread that is inside a call it entered with step `m` and choice `ch`, shows
      only what that call was asked for. */
  ghost predicate Owed(ss: seq<State>, ls: seq<Label>, es: seq<Event>, m: nat, ch: Choice, n: nat)
    requires n < |ls| && |ss| == |ls| + 1 == |es| + 1
  {
    && ls[n].Move? && InCall(ss, ls, ls[n].t, ch, m, n)
    && BeginsWithSweep(ss[m], ch.start)
    && AskedFor(es[n], RequestOf(ch.start))
  }

  /** In every run, every event is the doing of a thread inside a call that asked for it. In
      particular a commit reaches SAP only in a call that asked for the commit of that very
      transaction, a transaction is rolled back on request only in a call that asked for it, and
      a write carries the data, and goes to the transaction, that were asked for. */
  lemma EveryEventWasAskedFor(ss: seq<State>, ls: seq<Label>, es: seq<Event>, n: nat)
    requires IsRun(ss, ls, es) && n < |ls| && es[n] != Silent
    ensures |ss| == |ls| + 1 == |es| + 1
    ensures exists m, ch :: Owed(ss, ls, es, m, ch, n)
  {
    hide Inv, Next, Known, LockFree, Possible, CanStart, AskedFor, Serves, Proceeds, Accounts, IsRun, Truthful;
    Lengths(ss, ls, es);
    RunStep(ss, ls, es, n);
    Reachable(ss, ls, es, n);
    var t, c := ls[n].t, ls[n].ch;
    if !Busy(ss[n], t) { Enters(ss, ls, es, t, c, n); }
    var m, ch := InsideSinceEntry(ss, ls, es, t, n);
    Enters(ss, ls, es, t, ch, m);
    EntriesSweep(ss[m], ch.start);
    if RequestOf(ch.start).Some? {
      var g := RequestOf(ch.start).value;
      ServedThroughout(ss, ls, es, t, ch, m, n, g);
      CallGoesOn(ss, ls, es, t, ch, m, n, g);
      NextTellsTheTruth(ss[n], t, c);
      NextAccounted(ss[n], t, c);
      ServingAsks(ss[n], t, c, ss[n + 1], es[n], g);
    } else {
      ClosersGoOn(ss, ls, es, t, ch, m, n);
      ClosersSay(ss[n], t, c);
    }
    assert Owed(ss, ls, es, m, ch, n);
  }

  lemma EntriesSweep(s: State, start: Pc)
    requires CanStart(s, start)
    ensures BeginsWithSweep(s, start)
  {}

  // ---- nothing is ruled out ----

  /** Runs are not restricted: a thread that no lock stops can move under every outcome of its
      call, and a thread that is outside can make every request and start either shutdown. */
  lemma EveryOutcomeIsPossible(s: State, t: Tid, start: Pc, ok: bool, fits: bool, applied: bool, left: seq<Write>)
    requires Inv(s) && t in s.pc && LockFree(s, t)
    requires start.CloseTake? || start.DrainTake? || RequestOf(start).Some?
    requires start.Prepare? ==> start.goal.GRead?
    requires start.SweepTake? ==> start.cutoff == s.now - s.ttl
    requires start.CkWait? ==> start.want == ForCall(Final)
    ensures exists ch ::
              && Enabled(s, t, ch) && ch.start == start
              && ch.ok == ok && ch.fits == fits && ch.applied == applied && ch.left == left
  {
    hide Inv;
    ReferencesExist(s, t);
    var id := FreshName(s.txs.Keys);
    var c := FreshName(s.place.Keys);
    var ids := ListOf(s.table);
    assert Enabled(s, t, Choice(start, ok, fits, applied, id, c, ids, left)) by { hide Known; }
  }
}
