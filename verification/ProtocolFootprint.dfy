/** What one step of thread `t` can change, and what its event says about it. */
module ProtocolFootprint {
  import opened Common
  import opened ProtocolState
  import opened ProtocolSteps
  import opened ProtocolInvariant
  import opened ProtocolPreservation

  /** Other threads, their locks and, without the pool lock, the idle list stay as they are. */
  ghost predicate LeavesOthers(s: State, t: Tid, s': State) {
    && s'.size == s.size && s'.ttl == s.ttl && s'.now == s.now && s'.pc.Keys == s.pc.Keys
    && (forall u | u in s.pc && u != t :: s'.pc[u] == s.pc[u])
    && (s'.tableLock == s.tableLock || (s.tableLock in {None, Some(t)} && s'.tableLock in {None, Some(t)}))
    && (s'.poolLock == s.poolLock || (s.poolLock in {None, Some(t)} && s'.poolLock in {None, Some(t)}))
    && (s'.idle == s.idle || s.poolLock == Some(t))
  }

  /** The stage of `id` stays, or makes one step that shows in the event. */
  ghost predicate Advances(before: Stage, after: Stage, id: Id, t: Tid, e: Event) {
    || after == before
    || (before.Fresh? && after == Live)
    || (before == Live && after.Detached? && after.remover == t && e.Removed? && id in e.ids && after.why == e.why)
    || (before.Detached? && after == Done(before.why) && e.Released? && e.id == id)
  }

  /** What `e` adds to the executed writes of `id`. */
  function Adds(e: Event, id: Id): seq<Write> {
    if e.Wrote? && e.w.id == id then [e.w] else []
  }

  ghost predicate TxAdvances(s: State, t: Tid, s': State, e: Event, id: Id)
    requires id in s.txs
  {
    && id in s'.txs && s'.txs[id].conn == s.txs[id].conn
    && Advances(s.txs[id].stage, s'.txs[id].stage, id, t, e)
    && s'.txs[id].executed == s.txs[id].executed + Adds(e, id)
    && (s'.txs[id].lastUsed == s.txs[id].lastUsed || s'.txs[id].lastUsed == s.now)
  }

  /** What `e` adds to SAP's durable log. */
  function Batch(s: State, e: Event): seq<seq<Write>> {
    match e
    case Committed(id) => if id in s.txs then [s.txs[id].executed] else []
    case CommitFailed(id, applied) => if applied && id in s.txs then [s.txs[id].executed] else []
    case _ => []
  }

  /** The event is true of the step. */
  ghost predicate Truthful(s: State, t: Tid, s': State, e: Event)
    requires t in s.pc
  {
    match e
    case Silent => true
    case Refused(id) => id !in s.table
    case Wrote(w) => s.pc[t] == WriteCall(w.id, w.data)
    case Removed(ids, why) =>
      forall id | id in ids :: id in s.txs && id in s'.txs && s.txs[id].stage == Live &&
        s'.txs[id].stage == Detached(t, why)
    case Committed(id) => s.pc[t] == FinCall(id, true)
    case CommitFailed(id, _) => s.pc[t] == FinCall(id, true)
    case Released(id, reusable) =>
      && id in s.txs && id in s'.txs
      && s.txs[id].stage.Detached? && s'.txs[id].stage == Done(s.txs[id].stage.why)
      && s.txs[id].stage.remover == t && !s.pc[t].FinCall?
  }

  ghost predicate TellsTheTruth(s: State, t: Tid, s': State, e: Event)
    requires t in s.pc
  {
    && (forall id | id in s.txs :: TxAdvances(s, t, s', e, id))
    && (forall id | id in s'.txs && id !in s.txs ::
          s'.txs[id].stage == Fresh(t) && s'.txs[id].executed == [] && s'.txs[id].lastUsed == s.now)
    && s'.durable == s.durable + Batch(s, e)
    && Truthful(s, t, s', e)
  }

  // ---- other threads ----

  /** The owner of the table lock moves and gives the lock back. */
  lemma EndsTableBlock(s: State, t: Tid, s': State, p: Pc)
    requires t in s.pc && s.tableLock == Some(t)
    requires s' == s.(tableLock := None, pc := s.pc[t := p], table := s'.table, txs := s'.txs)
    ensures LeavesOthers(s, t, s')
  {}

  /** A step that takes or gives back neither short lock and leaves the idle list alone. */
  lemma MovesAlone(s: State, t: Tid, s': State, p: Pc)
    requires t in s.pc && s'.pc == s.pc[t := p] && s'.size == s.size && s'.ttl == s.ttl && s'.now == s.now
    requires s'.tableLock == s.tableLock && s'.poolLock == s.poolLock && s'.idle == s.idle
    ensures LeavesOthers(s, t, s')
  {}

  lemma EntryLeaves(s: State, t: Tid, ch: Choice)
    requires t in s.pc && Known(s, s.pc[t]) && (s.pc[t].SweepTake? || s.pc[t].TxInsert?) && s.tableLock == Some(t)
    ensures LeavesOthers(s, t, LookStep(s, t, ch).0)
  {
    hide LeavesOthers, Owes, Refers;
    var s' := LookStep(s, t, ch).0;
    EndsTableBlock(s, t, s', s'.pc[t]);
  }

  lemma LookLeaves(s: State, t: Tid, ch: Choice)
    requires t in s.pc && Known(s, s.pc[t]) && Looking(s.pc[t]) && s.tableLock == Some(t)
    ensures LeavesOthers(s, t, LookStep(s, t, ch).0)
  {
    hide LeavesOthers, Known, SetStage;
    if s.pc[t].SweepTake? || s.pc[t].TxInsert? {
      EntryLeaves(s, t, ch);
    } else {
      var s' := LookStep(s, t, ch).0;
      EndsTableBlock(s, t, s', s'.pc[t]);
    }
  }

  lemma BatchRemovalLeaves(s: State, t: Tid, ch: Choice)
    requires t in s.pc && Known(s, s.pc[t]) && (s.pc[t].SweepLocked? || s.pc[t].CloseTake?) && s.tableLock == Some(t)
    ensures LeavesOthers(s, t, RemoveStep(s, t, ch).0)
  {
    hide LeavesOthers, Shut, Owes, Refers;
    var s' := RemoveStep(s, t, ch).0;
    EndsTableBlock(s, t, s', s'.pc[t]);
  }

  lemma DiscardLeaves(s: State, t: Tid, ch: Choice)
    requires t in s.pc && Known(s, s.pc[t]) && s.pc[t].Discard? && s.tableLock == Some(t)
    ensures LeavesOthers(s, t, RemoveStep(s, t, ch).0)
  {
    hide LeavesOthers, Owes, Refers;
    var s' := RemoveStep(s, t, ch).0;
    EndsTableBlock(s, t, s', s'.pc[t]);
  }

  lemma FinRemoveLeaves(s: State, t: Tid, ch: Choice)
    requires t in s.pc && Known(s, s.pc[t]) && s.pc[t].FinRemove? && s.tableLock == Some(t)
    ensures LeavesOthers(s, t, RemoveStep(s, t, ch).0)
  {
    hide LeavesOthers, Owes, Refers;
    var s' := RemoveStep(s, t, ch).0;
    EndsTableBlock(s, t, s', s'.pc[t]);
  }

  lemma RemoveLeaves(s: State, t: Tid, ch: Choice)
    requires t in s.pc && Known(s, s.pc[t]) && Removing(s.pc[t]) && s.tableLock == Some(t)
    ensures LeavesOthers(s, t, RemoveStep(s, t, ch).0)
  {
    hide LeavesOthers, RemoveStep, Known;
    if s.pc[t].SweepLocked? || s.pc[t].CloseTake? {
      BatchRemovalLeaves(s, t, ch);
    } else if s.pc[t].Discard? {
      DiscardLeaves(s, t, ch);
    } else {
      FinRemoveLeaves(s, t, ch);
    }
  }

  lemma PoolLeaves(s: State, t: Tid)
    requires t in s.pc && WantsPool(s.pc[t]) && s.poolLock == Some(t) && Known(s, s.pc[t])
    ensures LeavesOthers(s, t, PoolStep(s, t).0)
  {
    hide Known, Drained;
  }

  lemma SweepLeaves(s: State, t: Tid, ch: Choice)
    requires t in s.pc && Known(s, s.pc[t]) && Sweeping(s.pc[t])
    ensures LeavesOthers(s, t, SweepStep(s, t, ch).0)
  {
    hide Known;
  }

  /** The caller goes on, with a connection or without. */
  lemma GotLeaves(s: State, s1: State, t: Tid, want: Want, c: Conn, ch: Choice)
    requires t in s.pc && s1 == s.(poolLock := s1.poolLock, staged := s1.staged)
    requires s1.poolLock == s.poolLock || (s.poolLock == Some(t) && s1.poolLock == None)
    ensures LeavesOthers(s, t, Got(s1, t, want, c, ch))
  {}

  lemma CheckoutLeaves(s: State, t: Tid, ch: Choice)
    requires t in s.pc && CheckingOut(s.pc[t]) && (s.pc[t].CkPing? ==> s.poolLock == Some(t))
    ensures LeavesOthers(s, t, CheckoutStep(s, t, ch).0)
  {
    hide Got;
    if s.pc[t].CkPing? && ch.ok {
      hide LeavesOthers;
      GotLeaves(s, UnlockPool(s), t, s.pc[t].want, s.pc[t].conn, ch);
    } else if s.pc[t].CkOpen? && ch.ok {
      hide LeavesOthers;
      GotLeaves(s, SetStaged(s, ch.freshConn, []), t, s.pc[t].want, ch.freshConn, ch);
    }
  }

  lemma CallLeaves(s: State, t: Tid, ch: Choice)
    requires t in s.pc && Calling(s.pc[t])
    ensures LeavesOthers(s, t, CallStep(s, t, ch).0)
  {}

  lemma FinCallLeaves(s: State, t: Tid, ch: Choice)
    requires t in s.pc && Known(s, s.pc[t]) && s.pc[t].FinCall?
    ensures LeavesOthers(s, t, WorkStep(s, t, ch).0)
  {
    hide Owes, Refers, LeavesOthers, WriteEnds;
    var s' := WorkStep(s, t, ch).0;
    MovesAlone(s, t, s', s'.pc[t]);
  }

  lemma WorkLeaves(s: State, t: Tid, ch: Choice)
    requires t in s.pc && Known(s, s.pc[t]) && Working(s.pc[t])
    ensures LeavesOthers(s, t, WorkStep(s, t, ch).0)
  {
    hide Owes, Refers, LeavesOthers, CommitEnds, RollbackEnds;
    if s.pc[t].FinCall? {
      FinCallLeaves(s, t, ch);
    } else {
      var s' := WorkStep(s, t, ch).0;
      MovesAlone(s, t, s', s'.pc[t]);
    }
  }

  lemma ReleaseLeaves(s: State, t: Tid)
    requires t in s.pc && Releasing(s.pc[t]) && Known(s, s.pc[t])
    ensures LeavesOthers(s, t, ReleaseStep(s, t).0)
  {
    hide Known;
  }

  lemma ShutdownLeaves(s: State, t: Tid, ch: Choice)
    requires t in s.pc && Known(s, s.pc[t]) && ShuttingDown(s.pc[t])
    ensures LeavesOthers(s, t, ShutdownStep(s, t, ch).0)
  {
    hide Known;
  }

  lemma NextLeaves(s: State, t: Tid, ch: Choice)
    requires t in s.pc && Known(s, s.pc[t]) && LockFree(s, t) && (s.pc[t].CkPing? ==> s.poolLock == Some(t))
    ensures LeavesOthers(s, t, Next(s, t, ch).0)
  {
    hide Known, LookStep, RemoveStep, PoolStep, SweepStep, CheckoutStep, CallStep, WorkStep, ReleaseStep, ShutdownStep;
    var p := s.pc[t];
    if Looking(p) && s.tableLock == Some(t) {
      LookLeaves(s, t, ch);
    } else if Removing(p) && s.tableLock == Some(t) {
      RemoveLeaves(s, t, ch);
    } else if WantsPool(p) && s.poolLock == Some(t) {
      PoolLeaves(s, t);
    } else if Sweeping(p) {
      SweepLeaves(s, t, ch);
    } else if CheckingOut(p) {
      CheckoutLeaves(s, t, ch);
    } else if Calling(p) {
      CallLeaves(s, t, ch);
    } else if Working(p) {
      WorkLeaves(s, t, ch);
    } else if Releasing(p) {
      ReleaseLeaves(s, t);
    } else if ShuttingDown(p) {
      ShutdownLeaves(s, t, ch);
    }
  }

  lemma PingsUnderPoolLock(s: State, t: Tid)
    requires Inv(s) && t in s.pc && (s.pc[t].CkPing? || s.pc[t].CkDead?)
    ensures s.poolLock == Some(t)
  {
    CheckoutRoles(s.pc[t].want, s.pc[t].conn);
    hide RoleOf;
    ShortLocks(s, t);
  }

  lemma NextLeavesOthers(s: State, t: Tid, ch: Choice)
    requires Inv(s) && Enabled(s, t, ch)
    ensures LeavesOthers(s, t, Next(s, t, ch).0)
  {
    hide InvOver, RoleOf, Known, LockFree, Next, LeavesOthers;
    if s.pc[t].CkPing? { PingsUnderPoolLock(s, t); }
    NextLeaves(s, t, ch);
  }

  // ---- transactions and the durable log ----

  lemma Quietly(s: State, t: Tid, r: (State, Event))
    requires t in s.pc && r.0.txs == s.txs && r.0.durable == s.durable && r.1 == Silent
    ensures TellsTheTruth(s, t, r.0, r.1)
  {}

  lemma Refusal(s: State, t: Tid, r: (State, Event), id: Id)
    requires t in s.pc && r.0.txs == s.txs && r.0.durable == s.durable && r.1 == Refused(id) && id !in s.table
    ensures TellsTheTruth(s, t, r.0, r.1)
  {}

  /** One transaction moves on in its life. */
  lemma Restages(s: State, t: Tid, r: (State, Event), id: Id, stage: Stage)
    requires t in s.pc && id in s.txs && r.0.txs == SetStage(s, id, stage).txs && r.0.durable == s.durable
    requires Advances(s.txs[id].stage, stage, id, t, r.1)
    requires r.1 == Silent || (r.1.Removed? && r.1.ids == {id} && s.txs[id].stage == Live &&
             stage == Detached(t, r.1.why)) ||
             (r.1.Released? && r.1.id == id && s.txs[id].stage.Detached? && stage == Done(s.txs[id].stage.why) &&
              s.txs[id].stage.remover == t && !s.pc[t].FinCall?)
    ensures TellsTheTruth(s, t, r.0, r.1)
  {}

  lemma InsertTells(s: State, t: Tid, ch: Choice)
    requires Inv(s) && t in s.pc && Known(s, s.pc[t]) && s.pc[t].TxInsert?
    ensures var r := LookStep(s, t, ch); TellsTheTruth(s, t, r.0, r.1)
  {
    hide InvOver, RoleOf, Known, TellsTheTruth;
    OwnJob(s, t);
    WriteRoles(s.pc[t].id, s.pc[t].data);
    Restages(s, t, LookStep(s, t, ch), s.pc[t].id, Live);
  }

  lemma LookTells(s: State, t: Tid, ch: Choice)
    requires t in s.pc && Known(s, s.pc[t]) && Looking(s.pc[t]) && !s.pc[t].TxInsert?
    ensures var r := LookStep(s, t, ch); TellsTheTruth(s, t, r.0, r.1)
  {
    hide Known, TellsTheTruth;
    var r := LookStep(s, t, ch);
    if r.1.Refused? {
      Refusal(s, t, r, r.1.id);
    } else {
      Quietly(s, t, r);
    }
  }

  /** One transaction leaves the table. */
  lemma Detaches(s: State, t: Tid, r: (State, Event), id: Id, why: Reason)
    requires Inv(s) && t in s.pc && id in s.table && id in s.txs
    requires r.0.txs == SetStage(s, id, Detached(t, why)).txs && r.0.durable == s.durable && r.1 == Removed({id}, why)
    ensures TellsTheTruth(s, t, r.0, r.1)
  {
    TableIsLive(s);
    hide InvOver, TellsTheTruth;
    Restages(s, t, r, id, Detached(t, why));
  }

  lemma SweepLockedTells(s: State, t: Tid, ch: Choice)
    requires Inv(s) && t in s.pc && Known(s, s.pc[t]) && s.pc[t].SweepLocked?
    ensures var r := RemoveStep(s, t, ch); TellsTheTruth(s, t, r.0, r.1)
  {
    hide Inv, TellsTheTruth, Owes, Refers;
    var r := RemoveStep(s, t, ch);
    if r.1.Removed? {
      Detaches(s, t, r, s.pc[t].id, ByExpiry);
    } else {
      Quietly(s, t, r);
    }
  }

  lemma RemoveIfCurrentTells(s: State, t: Tid, ch: Choice)
    requires Inv(s) && t in s.pc && Known(s, s.pc[t]) && (s.pc[t].Discard? || s.pc[t].FinRemove?)
    ensures var r := RemoveStep(s, t, ch); TellsTheTruth(s, t, r.0, r.1)
  {
    hide Inv, TellsTheTruth, Owes, Refers;
    var r := RemoveStep(s, t, ch);
    if r.1.Removed? {
      Detaches(s, t, r, s.pc[t].id, r.1.why);
    } else if r.1.Refused? {
      Refusal(s, t, r, r.1.id);
    } else {
      Quietly(s, t, r);
    }
  }

  lemma CloseTakeTells(s: State, t: Tid, ch: Choice)
    requires Inv(s) && t in s.pc && Known(s, s.pc[t]) && s.pc[t].CloseTake?
    ensures var r := RemoveStep(s, t, ch); TellsTheTruth(s, t, r.0, r.1)
  {
    hide InvOver, TellsTheTruth, Known, Shut;
    TableIsLive(s);
    ShutTells(s, t, RemoveStep(s, t, ch));
  }

  lemma ShutTells(s: State, t: Tid, r: (State, Event))
    requires t in s.pc && r.0.txs == Shut(s.table, s.txs, t) && r.0.durable == s.durable &&
             r.1 == Removed(s.table, ByShutdown)
    requires forall id | id in s.table :: id in s.txs
    requires forall id | id in s.txs :: id in s.table <==> s.txs[id].stage.Live?
    ensures TellsTheTruth(s, t, r.0, r.1)
  {}

  lemma PoolTells(s: State, t: Tid)
    requires Inv(s) && t in s.pc && WantsPool(s.pc[t]) && Known(s, s.pc[t])
    ensures var r := PoolStep(s, t); TellsTheTruth(s, t, r.0, r.1)
  {
    hide InvOver, TellsTheTruth, Known, Drained;
    var r := PoolStep(s, t);
    if s.pc[t].Push? && s.pc[t].owner.OfTx? {
      var id := s.pc[t].owner.id;
      EndingRoles(s.pc[t].conn, id, s.pc[t].owner.after);
      OwedIsDetached(s, t, id);
      hide RoleOf;
      Restages(s, t, r, id, Done(s.txs[id].stage.why));
    } else {
      Quietly(s, t, r);
    }
  }

  lemma SweepTells(s: State, t: Tid, ch: Choice)
    requires t in s.pc && Known(s, s.pc[t]) && Sweeping(s.pc[t])
    ensures var r := SweepStep(s, t, ch); TellsTheTruth(s, t, r.0, r.1)
  {
    hide TellsTheTruth, Known;
    Quietly(s, t, SweepStep(s, t, ch));
  }

  /** A new transaction object. */
  lemma Creates(s: State, t: Tid, r: (State, Event), id: Id, x: Tx)
    requires t in s.pc && id !in s.txs && r.0.txs == s.txs[id := x] && r.0.durable == s.durable && r.1 == Silent
    requires x.stage == Fresh(t) && x.executed == [] && x.lastUsed == s.now
    ensures TellsTheTruth(s, t, r.0, r.1)
  {}

  lemma CheckoutTells(s: State, t: Tid, ch: Choice)
    requires t in s.pc && CheckingOut(s.pc[t]) && ch.freshId !in s.txs
    ensures var r := CheckoutStep(s, t, ch); TellsTheTruth(s, t, r.0, r.1)
  {
    hide TellsTheTruth;
    var r := CheckoutStep(s, t, ch);
    if (s.pc[t].CkPing? || s.pc[t].CkOpen?) && ch.ok && s.pc[t].want.ForWrite? {
      var c := if s.pc[t].CkPing? then s.pc[t].conn else ch.freshConn;
      Creates(s, t, r, ch.freshId, Tx(c, s.now, Fresh(t), []));
    } else {
      Quietly(s, t, r);
    }
  }

  lemma CallTells(s: State, t: Tid, ch: Choice)
    requires t in s.pc && Calling(s.pc[t])
    ensures var r := CallStep(s, t, ch); TellsTheTruth(s, t, r.0, r.1)
  {
    hide TellsTheTruth;
    Quietly(s, t, CallStep(s, t, ch));
  }

  lemma WriteTells(s: State, t: Tid, id: Id, data: nat, ch: Choice)
    requires t in s.pc && id in s.txs && s.pc[t] == WriteCall(id, data)
    ensures var r := WriteEnds(s, t, id, data, ch); TellsTheTruth(s, t, r.0, r.1)
  {}

  lemma CommitOutcome(s: State, t: Tid, r: (State, Event), id: Id)
    requires t in s.pc && id in s.txs && s.pc[t] == FinCall(id, true) && r.0.txs == s.txs
    requires r.1 == Committed(id) || (r.1.CommitFailed? && r.1.id == id)
    requires r.0.durable == s.durable + Batch(s, r.1)
    ensures TellsTheTruth(s, t, r.0, r.1)
  {}

  /** A commit makes durable exactly what the transaction executed, or nothing. */
  lemma CommitTells(s: State, t: Tid, id: Id, ch: Choice)
    requires Inv(s) && t in s.pc && id in s.txs && s.pc[t] == FinCall(id, true)
    ensures var r := CommitEnds(s, t, id, ch); TellsTheTruth(s, t, r.0, r.1)
  {
    hide InvOver, RoleOf, TellsTheTruth;
    OwnJob(s, t);
    FinishRoles(id, true, GRead(0), 0, []);
    assert StagedOn(s.staged, s.txs[id].conn) == s.txs[id].executed;
    var r := CommitEnds(s, t, id, ch);
    if !ch.ok && !ch.applied { assert s.durable + [] == s.durable; }
    CommitOutcome(s, t, r, id);
  }

  lemma WorkTells(s: State, t: Tid, ch: Choice)
    requires Inv(s) && t in s.pc && Known(s, s.pc[t]) && Working(s.pc[t])
    ensures var r := WorkStep(s, t, ch); TellsTheTruth(s, t, r.0, r.1)
  {
    hide InvOver, TellsTheTruth, WriteEnds, CommitEnds, Owes, Refers;
    var r := WorkStep(s, t, ch);
    var p := s.pc[t];
    if p.WriteCall? {
      WriteTells(s, t, p.id, p.data, ch);
    } else if p.FinCall? && p.commit {
      CommitTells(s, t, p.id, ch);
    } else if p.WriteAck? {
      TouchTells(s, t, r, p.id);
    } else {
      Quietly(s, t, r);
    }
  }

  lemma TouchTells(s: State, t: Tid, r: (State, Event), id: Id)
    requires t in s.pc && id in s.txs && r.0.txs == s.txs[id := s.txs[id].(lastUsed := s.now)]
    requires r.0.durable == s.durable && r.1 == Silent
    ensures TellsTheTruth(s, t, r.0, r.1)
  {}

  lemma ReleaseTells(s: State, t: Tid)
    requires Inv(s) && t in s.pc && Releasing(s.pc[t]) && Known(s, s.pc[t])
    ensures var r := ReleaseStep(s, t); TellsTheTruth(s, t, r.0, r.1)
  {
    hide InvOver, TellsTheTruth, Known;
    var r := ReleaseStep(s, t);
    if s.pc[t].Drop? && s.pc[t].owner.OfTx? {
      var id := s.pc[t].owner.id;
      EndingRoles(s.pc[t].conn, id, s.pc[t].owner.after);
      OwedIsDetached(s, t, id);
      hide RoleOf;
      Restages(s, t, r, id, Done(s.txs[id].stage.why));
    } else {
      Quietly(s, t, r);
    }
  }

  lemma ShutdownTells(s: State, t: Tid, ch: Choice)
    requires t in s.pc && Known(s, s.pc[t]) && ShuttingDown(s.pc[t])
    ensures var r := ShutdownStep(s, t, ch); TellsTheTruth(s, t, r.0, r.1)
  {
    hide TellsTheTruth, Known;
    Quietly(s, t, ShutdownStep(s, t, ch));
  }

  lemma NextTellsTheTruth(s: State, t: Tid, ch: Choice)
    requires Inv(s) && Enabled(s, t, ch)
    ensures var r := Next(s, t, ch); TellsTheTruth(s, t, r.0, r.1)
  {
    hide InvOver, RoleOf, TellsTheTruth, Known;
    hide LookStep, RemoveStep, PoolStep, SweepStep, CheckoutStep, CallStep, WorkStep, ReleaseStep, ShutdownStep;
    var p := s.pc[t];
    if (WantsTable(p) && s.tableLock != Some(t)) || (WantsPool(p) && s.poolLock != Some(t)) {
      Quietly(s, t, Next(s, t, ch));
    } else if p.TxInsert? {
      InsertTells(s, t, ch);
    } else if Looking(p) {
      LookTells(s, t, ch);
    } else if p.SweepLocked? {
      SweepLockedTells(s, t, ch);
    } else if p.CloseTake? {
      CloseTakeTells(s, t, ch);
    } else if Removing(p) {
      RemoveIfCurrentTells(s, t, ch);
    } else if WantsPool(p) {
      PoolTells(s, t);
    } else if Sweeping(p) {
      SweepTells(s, t, ch);
    } else if CheckingOut(p) {
      CheckoutTells(s, t, ch);
    } else if Calling(p) {
      CallTells(s, t, ch);
    } else if Working(p) {
      WorkTells(s, t, ch);
    } else if Releasing(p) {
      ReleaseTells(s, t);
    } else {
      ShutdownTells(s, t, ch);
    }
  }
}
