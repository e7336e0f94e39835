/** ConnectionPool, one call at a time, over a backend that remembers what each connection
    has staged. The race of several callers is the subject of the Protocol modules. */
module ConnectionPools {
  import opened Common
  import opened Retry
  import M = TransactionModel
  import P = ProtocolState
  import S = ProtocolSteps

  type Conn = P.Conn
  type Work = map<Conn, seq<P.Write>>

  /** The backend's work after a checkout: the connection handed out has none, and nothing
      else changed. */
  ghost predicate WorkAfter(before: Work, after: Work, got: Result<Conn, M.PoolError>) {
    forall c: Conn :: S.StagedOn(after, c) == if got == Ok(c) then [] else S.StagedOn(before, c)
  }

  /** No connection of the list has uncommitted work. */
  ghost predicate CleanList(conns: seq<Conn>, staged: Work) {
    forall i | 0 <= i < |conns| :: S.StagedOn(staged, conns[i]) == []
  }

  /** The same uncommitted work on every connection. */
  ghost predicate SameWork(before: Work, after: Work) {
    forall c: Conn :: S.StagedOn(after, c) == S.StagedOn(before, c)
  }

  /** Closing a clean connection changes nobody's work. */
  lemma CloseClean(before: Work, staged: Work, conns: seq<Conn>, c: Conn)
    requires SameWork(before, staged) && CleanList(conns, staged) && S.StagedOn(staged, c) == []
    ensures SameWork(before, staged[c := []]) && CleanList(conns, staged[c := []])
  {
    assert forall x: Conn :: S.StagedOn(staged[c := []], x) == S.StagedOn(staged, x);
  }

  /** SAP as the connections see it. Not part of the source: the other end of the wire. */
  class Backend {
    var staged: Work
    var durable: seq<seq<P.Write>>
    var everOpened: set<Conn>
    var closed: seq<Conn>

    constructor ()
      ensures staged == map[] && durable == [] && everOpened == {} && closed == []
    {
      staged, durable, everOpened, closed := map[], [], {}, [];
    }

    /** Uncommitted work on the connection. */
    function On(c: Conn): seq<P.Write>
      reads this
    {
      S.StagedOn(staged, c)
    }

    method Open(c: Conn)
      modifies this
      ensures staged == old(staged)[c := []] && everOpened == old(everOpened) + {c}
      ensures durable == old(durable) && closed == old(closed)
    {
      staged, everOpened := staged[c := []], everOpened + {c};
    }

    /** Closing a connection drops its uncommitted work. */
    method Close(c: Conn)
      modifies this
      ensures staged == old(staged)[c := []] && closed == old(closed) + [c]
      ensures durable == old(durable) && everOpened == old(everOpened)
    {
      staged, closed := staged[c := []], closed + [c];
    }

    method Execute(c: Conn, w: P.Write, ok: bool, left: seq<P.Write>)
      modifies this
      ensures staged == old(staged)[c := if ok then old(On(c)) + [w] else left]
      ensures durable == old(durable) && everOpened == old(everOpened) && closed == old(closed)
    {
      staged := staged[c := if ok then On(c) + [w] else left];
    }

    method Rollback(c: Conn, ok: bool, left: seq<P.Write>)
      modifies this
      ensures staged == old(staged)[c := if ok then [] else left]
      ensures durable == old(durable) && everOpened == old(everOpened) && closed == old(closed)
    {
      staged := staged[c := if ok then [] else left];
    }

    method Commit(c: Conn, ok: bool, applied: bool, left: seq<P.Write>)
      modifies this
      ensures staged == old(staged)[c := if ok then [] else left]
      ensures durable == if ok || applied then old(durable) + [old(On(c))] else old(durable)
      ensures everOpened == old(everOpened) && closed == old(closed)
    {
      if ok || applied { durable := durable + [On(c)]; }
      staged := staged[c := if ok then [] else left];
    }
  }

  class ConnectionPool {
    const size: nat
    const maxRetries: nat
    const backoffBase: real
    const sap: Backend
    var idle: seq<Conn>
    var permits: int

    constructor (size: nat, maxRetries: nat, backoffBase: real)
      ensures fresh(sap) && View() == M.Pool(size, maxRetries, [], size, {}, []) && Clean()
      ensures sap.staged == map[] && sap.durable == []
    {
      this.size, this.maxRetries, this.backoffBase := size, maxRetries, backoffBase;
      idle, permits := [], size;
      sap := new Backend();
    }

    ghost function View(): M.Pool
      reads this, sap
    {
      M.Pool(size, maxRetries, idle, permits, sap.everOpened, sap.closed)
    }

    /** No idle connection has uncommitted work. */
    ghost predicate Clean()
      reads this, sap
    {
      CleanList(idle, sap.staged)
    }

    /** The block of `checkout` under the pool lock: candidates are popped until one answers. */
    method PopLive(alive: Conn -> bool) returns (r: Option<Conn>)
      requires Clean()
      modifies this`idle, sap
      ensures var kept := M.Trim(old(idle), alive);
              if kept == [] then r == None && idle == []
              else r == Some(kept[|kept| - 1]) && idle == kept[..|kept| - 1]
      ensures sap.closed == old(sap.closed) + M.DeadEnd(old(idle), alive)
      ensures sap.everOpened == old(sap.everOpened) && sap.durable == old(sap.durable)
      ensures Clean() && (r.Some? ==> S.StagedOn(sap.staged, r.value) == [])
      ensures SameWork(old(sap.staged), sap.staged)
    {
      while idle != []
        invariant M.Trim(idle, alive) == M.Trim(old(idle), alive)
        invariant sap.closed + M.DeadEnd(idle, alive) == old(sap.closed) + M.DeadEnd(old(idle), alive)
        invariant sap.durable == old(sap.durable) && sap.everOpened == old(sap.everOpened)
        invariant CleanList(idle, sap.staged) && SameWork(old(sap.staged), sap.staged)
        decreases |idle|
      {
        ghost var all := idle;
        var candidate := idle[|idle| - 1];
        idle := idle[..|idle| - 1];
        if alive(candidate) {
          assert M.Trim(all, alive) == all && sap.closed == sap.closed + M.DeadEnd(all, alive);
          return Some(candidate);
        }
        assert M.DeadEnd(all, alive) == [candidate] + M.DeadEnd(idle, alive);
        CloseClean(old(sap.staged), sap.staged, idle, candidate);
        sap.Close(candidate);
      }
      assert sap.closed == sap.closed + M.DeadEnd(idle, alive);
      r := None;
    }

    /** `checkout`: the last idle connection that still answers, or a new one. */
    method Checkout(alive: Conn -> bool, dial: nat -> Dial<Conn, nat>) returns (r: Result<Conn, M.PoolError>)
      requires Clean()
      modifies this, sap
      ensures (View(), r) == M.Checkout(old(View()), alive, dial)
      ensures sap.durable == old(sap.durable) && Clean()
      ensures WorkAfter(old(sap.staged), sap.staged, r)
    {
      if permits <= 0 {
        return Err(M.PoolTimeout);
      }
      permits := permits - 1;
      var candidate := PopLive(alive);
      if candidate.Some? {
        return Ok(candidate.value);
      }
      var conn, slept, tries := OpenWithRetry(dial, maxRetries, backoffBase);
      match conn
      case Ok(c) =>
        sap.Open(c);
        r := Ok(c);
      case Err(code) =>
        permits := permits + 1;
        r := Err(M.OpenFailed(code));
    }

    method Release(c: Conn, reusable: bool)
      modifies this, sap
      ensures View() == M.GiveBack(old(View()), c, reusable)
      ensures sap.staged == if reusable then old(sap.staged) else old(sap.staged)[c := []]
      ensures sap.durable == old(sap.durable)
      ensures old(Clean() && sap.On(c) == []) ==> Clean()
    {
      if reusable {
        idle := idle + [c];
      } else {
        sap.Close(c);
      }
      permits := permits + 1;
    }

    method CloseAll()
      requires Clean()
      modifies this, sap
      ensures View() == M.CloseAll(old(View()))
      ensures sap.durable == old(sap.durable) && SameWork(old(sap.staged), sap.staged)
    {
      var conns := idle;
      idle := [];
      for i := 0 to |conns|
        invariant idle == [] && permits == old(permits)
        invariant sap.closed == old(sap.closed) + conns[..i]
        invariant sap.durable == old(sap.durable) && sap.everOpened == old(sap.everOpened)
        invariant CleanList(conns, sap.staged) && SameWork(old(sap.staged), sap.staged)
      {
        CloseClean(old(sap.staged), sap.staged, conns, conns[i]);
        sap.Close(conns[i]);
      }
    }
  }
}
