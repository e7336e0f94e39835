/** The state-by-state guarantees of the protocol, for every state of every run. */
module ProtocolTheorems {
  import opened Common
  import opened ProtocolState
  import opened ProtocolSteps
  import opened ProtocolInvariant
  import opened ProtocolRuns
  import opened ProtocolSafety
  import opened ProtocolProgress

  /** No two threads have a call in progress on the same connection. */
  ghost predicate OneCaller(s: State) {
    forall t, u | t in s.pc && u in s.pc && t != u && CallsOn(s, t).Some? :: CallsOn(s, t) != CallsOn(s, u)
  }

  /** Every open connection has exactly one holder, and closed ones have none. */
  ghost predicate Owned(s: State) {
    forall c | c in s.place ::
      if s.place[c] != Closed then ExactlyOneHolder(s, c)
      else c !in s.idle && (forall t :: !Borrows(s, t, c)) && (forall id :: !Pins(s, id, c))
  }

  /** In every interleaving of any number of threads, at every moment: connections are owned
      exclusively and called by one thread at a time, permits add up to the pool size, and
      connections never outnumber it. */
  lemma EveryStateIsSafe(ss: seq<State>, ls: seq<Label>, es: seq<Event>, n: nat)
    requires IsRun(ss, ls, es) && n < |ss|
    ensures Owned(ss[n]) && OneCaller(ss[n])
    ensures ss[n].permits + Count(ss[n].pc, HasPermit) + Count(ss[n].txs, Unfinished) == ss[n].size
    ensures 0 <= ss[n].permits <= ss[n].size
    ensures |ss[n].idle| + Count(ss[n].pc, HasSlot) + Count(ss[n].txs, Unfinished) <= ss[n].size
  {
    var s := ss[n];
    Reachable(ss, ls, es, n);
    PermitsAreConserved(s);
    ConnectionsAreBounded(s);
    hide Inv, ExactlyOneHolder, CallsOn, Borrows, Pins;
    forall c | c in s.place
      ensures if s.place[c] != Closed then ExactlyOneHolder(s, c)
              else c !in s.idle && (forall t :: !Borrows(s, t, c)) && (forall id :: !Pins(s, id, c))
    {
      if s.place[c] != Closed { ExclusiveOwnership(s, c); } else { ClosedIsGone(s, c); }
    }
    forall t, u | t in s.pc && u in s.pc && t != u && CallsOn(s, t).Some?
      ensures CallsOn(s, t) != CallsOn(s, u)
    {
      if CallsOn(s, t) == CallsOn(s, u) { OneCallerPerConnection(s, t, u, CallsOn(s, t).value); }
    }
  }

  /** Some thread can move, and a blocked one is at most two waits away from one that can. */
  ghost predicate NotStuck(s: State, t: Tid)
    requires t in s.pc
  {
    CanMove(s, t) ||
    exists u :: u in s.pc && WaitsOn(s, t, u) &&
                (CanMove(s, u) || exists v :: v in s.pc && WaitsOn(s, u, v) && CanMove(s, v))
  }

  /** No reachable state is a deadlock; the wait for the semaphore, which can time out, is made
      without holding any lock. */
  lemma EveryStateCanGoOn(ss: seq<State>, ls: seq<Label>, es: seq<Event>, n: nat, t: Tid)
    requires IsRun(ss, ls, es) && n < |ss| && t in ss[n].pc
    ensures NotStuck(ss[n], t)
    ensures ss[n].pc[t].CkWait? ==>
              && ss[n].tableLock != Some(t) && ss[n].poolLock != Some(t)
              && forall id | id in ss[n].txLock :: ss[n].txLock[id] != t
  {
    Reachable(ss, ls, es, n);
    NoDeadlock(ss[n], t);
    hide Inv, CanMove, WaitsOn;
    if ss[n].pc[t].CkWait? { SemaphoreWaitHoldsNothing(ss[n], t); }
  }
}
