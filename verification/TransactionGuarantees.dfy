/** What the abstract machine guarantees to its callers: failures touch nothing but the
    transaction that failed, and shutdown leaves nothing open. */
module TransactionGuarantees {
  import opened Common
  import opened Retry
  import opened TransactionModel
  import P = ProtocolState

  // ---- checkout ----

  /** The idle connection at `i` is live and those behind it are dead. */
  ghost predicate LastLive(idle: seq<Conn>, alive: Conn -> bool, i: nat) {
    i < |idle| && alive(idle[i]) && forall j | i < j < |idle| :: !alive(idle[j])
  }

  /** `q` is `p` after the idle connections from `n` on were closed, last first. */
  ghost predicate ClosedFrom(p: Pool, q: Pool, n: nat) {
    && n <= |p.idle| && |q.closed| == |p.closed| + |p.idle| - n
    && (forall j | 0 <= j < |p.closed| :: q.closed[j] == p.closed[j])
    && forall j | |p.closed| <= j < |q.closed| :: q.closed[j] == p.idle[|p.idle| - 1 - (j - |p.closed|)]
  }

  /** Attempt `k` is the first that is not a communication error, or the last there is. */
  ghost predicate EndsAt(dial: nat -> Dial<Conn, nat>, retries: nat, k: nat) {
    && k <= retries
    && (forall j | 0 <= j < k :: dial(j).Unreachable?)
    && (k < retries ==> !dial(k).Unreachable?)
  }

  /** The live connection at `i` was lent out of `p`. */
  ghost predicate LentIdle(p: Pool, q: Pool, r: Result<Conn, PoolError>, i: nat)
    requires i < |p.idle|
  {
    && r == Ok(p.idle[i]) && q.idle == p.idle[..i] && ClosedFrom(p, q, i + 1)
    && q.permits == p.permits - 1 && q.everOpened == p.everOpened
  }

  /** Nothing live was left in `p`, and opening a connection ended as `last`. */
  ghost predicate LentNew(p: Pool, q: Pool, r: Result<Conn, PoolError>, last: Dial<Conn, nat>) {
    && q.idle == [] && ClosedFrom(p, q, 0)
    && match last
       case Opened(c) => r == Ok(c) && q.permits == p.permits - 1 && q.everOpened == p.everOpened + {c}
       case Unreachable(code) => r == Err(OpenFailed(code)) && q.permits == p.permits && q.everOpened == p.everOpened
       case Rejected(code) => r == Err(OpenFailed(code)) && q.permits == p.permits && q.everOpened == p.everOpened
  }

  /** What checkout does. It times out if and only if no permit is free, and then changes
      nothing. With a permit it lends the live idle connection that was given back last; if there
      is none, the one that the first attempt opens that is not cut off by a communication
      error, within the retries; and if that attempt opens none it raises that attempt's error
      and the permit is free again. Dead idle connections behind the one lent are closed. */
  lemma CheckoutExactly(p: Pool, alive: Conn -> bool, dial: nat -> Dial<Conn, nat>)
    ensures var (q, r) := Checkout(p, alive, dial);
            && (r == Err(PoolTimeout) <==> p.permits <= 0)
            && (p.permits <= 0 ==> q == p)
            && (p.permits > 0 ==>
                  if exists i :: LastLive(p.idle, alive, i)
                  then exists i :: LastLive(p.idle, alive, i) && LentIdle(p, q, r, i)
                  else exists k :: EndsAt(dial, p.retries, k) && LentNew(p, q, r, dial(k)))
  {
    TrimEndsAlive(p.idle, alive);
    var kept := Trim(p.idle, alive);
    var (q, r) := Checkout(p, alive, dial);
    hide Trim, DeadEnd;
    if kept != [] {
      var i := |kept| - 1;
      assert p.idle[..i] == kept[..i];
      assert LastLive(p.idle, alive, i);
      if p.permits > 0 { assert LentIdle(p, q, r, i); }
    } else {
      var k := EndingAttempt(Redials(dial), p.retries);
      EndingIsFirst(Redials(dial), p.retries, 0, k);
      forall j | 0 <= j < k
        ensures dial(j).Unreachable?
      {
        assert Redials(dial)(j);
      }
      assert Redials(dial)(k) == dial(k).Unreachable?;
      assert EndsAt(dial, p.retries, k);
      if p.permits > 0 { assert LentNew(p, q, r, dial(k)); }
    }
  }

  // ---- failure frames ----

  /** `after` has the entries of `before` except those of `id`, unchanged. */
  ghost predicate OnlyLoses(before: seq<Entry>, after: seq<Entry>, id: Id) {
    forall e: Entry :: e in after <==> e in before && e.id != id
  }

  /** `after` differs from `before` in the entry of `id` alone. */
  ghost predicate SameButFor(before: seq<Entry>, after: seq<Entry>, id: Id) {
    forall e: Entry | e.id != id :: e in after <==> e in before
  }

  lemma SuccessExtends(m: Machine, id: Id, data: nat, env: Env)
    requires Sound(m) && Has(m.table, id) && env.callOk && env.fits
    ensures var r, was := RunWrite(m, id, data, env).0, Find(m.table, id);
            && SameButFor(m.table, r.table, id)
            && was.(work := was.work + [P.Write(id, data)], lastUsed := env.finished) in r.table
            && |r.table| == |m.table| && r.pool == m.pool && r.durable == m.durable
  {
    var w := P.Write(id, data);
    TouchKeeps(m.table, id, w, env.finished);
    var r := Touch(m.table, id, w, env.finished);
    var e := Find(m.table, id);
    var k :| 0 <= k < |m.table| && m.table[k] == e;
    assert r[k] == e.(work := e.work + [w], lastUsed := env.finished);
    forall x: Entry | x.id != id && x in m.table
      ensures x in r
    {
      var i :| 0 <= i < |m.table| && m.table[i] == x;
      assert r[i] == x;
    }
  }

  lemma FailureLoses(m: Machine, id: Id, data: nat, env: Env)
    requires Sound(m) && Has(m.table, id) && !(env.callOk && env.fits)
    ensures var r, lost := RunWrite(m, id, data, env).0, Find(m.table, id);
            && OnlyLoses(m.table, r.table, id)
            && r.durable == m.durable
            && r.pool == m.pool.(closed := m.pool.closed + [lost.conn], permits := m.pool.permits + 1)
  {
    WithoutKeeps(m.table, {id});
  }

  /** A write that names a transaction. Beyond the sweep: a policy or parameter error, or an
      unknown ID, changes nothing; a failed call or a result over the limits removes exactly
      that transaction, closes its connection and frees its permit, and nothing becomes
      durable; a success extends exactly that transaction by exactly that write. */
  lemma WriteFrames(m: Machine, ttl: int, id: Id, data: nat, env: Env)
    requires Sound(m)
    ensures var swept := Expire(m, env.start - ttl, env.rollbackOk);
            var (r, result) := CallTransactional(m, ttl, Some(id), data, env);
            match result
            case Ok(named) =>
              && named == id && Has(swept.table, id) && env.authorised && env.valid
              && SameButFor(swept.table, r.table, id) && r.pool == swept.pool && r.durable == swept.durable
              && var e := Find(swept.table, id);
                 e.(work := e.work + [P.Write(id, data)], lastUsed := env.finished) in r.table
            case Err(error) =>
              if error in {CallFailed, ResultTooLarge} then
                && Has(swept.table, id) && OnlyLoses(swept.table, r.table, id) && r.durable == swept.durable
                && r.pool == swept.pool.(closed := swept.pool.closed + [Find(swept.table, id).conn],
                                         permits := swept.pool.permits + 1)
              else r == swept && (error == NotFound(id) ==> !Has(swept.table, id))
  {
    hide Sound, Expire, OnlyLoses, SameButFor;
    SweptIsSound(m, env.start - ttl, env);
    var swept := Expire(m, env.start - ttl, env.rollbackOk);
    if env.authorised && env.valid && Has(swept.table, id) {
      if env.callOk && env.fits {
        SuccessExtends(swept, id, data, env);
      } else {
        FailureLoses(swept, id, data, env);
      }
    }
  }

  /** What a first write did to the table `before` and the number of free permits. */
  ghost predicate FirstWriteFrame(before: seq<Entry>, permits: int, r: Machine, result: Result<Id, CallError>,
      data: nat, env: Env) {
    match result
    case Ok(id) =>
      && id == env.freshId
      && SameButFor(before, r.table, id) && |r.table| == |before| + 1
      && Entry(id, r.table[|before|].conn, env.finished, [P.Write(id, data)]) in r.table
      && r.pool.permits == permits - 1
    case Err(_) =>
      OnlyLoses(before, r.table, env.freshId) && |r.table| == |before| && r.pool.permits == permits
  }

  /** One more entry under the same ID changes neither frame. */
  lemma FramesAppend(before: seq<Entry>, e: Entry, after: seq<Entry>)
    ensures SameButFor(before + [e], after, e.id) ==> SameButFor(before, after, e.id)
    ensures OnlyLoses(before + [e], after, e.id) ==> OnlyLoses(before, after, e.id)
  {}

  lemma NewEntryRuns(before: seq<Entry>, made: Machine, c: Conn, data: nat, env: Env)
    requires Sound(made) && made.table == before + [Entry(env.freshId, c, env.made, [])]
    ensures var id := env.freshId;
            && Has(made.table, id)
            && var (r, result) := RunWrite(made, id, data, env);
               r.durable == made.durable && FirstWriteFrame(before, made.pool.permits + 1, r, result, data, env)
  {
    hide SameButFor, OnlyLoses, Without, Touch, Conns, SoundPool, Find;
    var e := made.table[|before|];
    assert e in made.table;
    UniqueId(made.table, e, Find(made.table, e.id));
    var r := RunWrite(made, e.id, data, env).0;
    FramesAppend(before, e, r.table);
    if env.callOk && env.fits {
      SuccessExtends(made, e.id, data, env);
      TouchKeeps(made.table, e.id, P.Write(e.id, data), env.finished);
      assert r.table[|before|] == Entry(e.id, c, env.finished, [P.Write(e.id, data)]);
      assert r.table[|before|] in r.table;
    } else {
      FailureLoses(made, e.id, data, env);
      WithoutOne(made.table, e);
    }
  }

  /** A first write that does not succeed leaves the table as the sweep left it and its permit
      free again; one that succeeds adds one entry with that one write. */
  lemma FirstWriteFrames(m: Machine, data: nat, env: Env)
    requires Sound(m) && NewNames(m, env)
    ensures var (r, result) := FirstWrite(m, data, env);
            r.durable == m.durable && FirstWriteFrame(m.table, m.pool.permits, r, result, data, env)
  {
    CheckoutSound(m.pool, Conns(m.table), env.alive, env.dial);
    CheckoutPermits(m.pool, env.alive, env.dial);
    hide Checkout, SoundPool, RunWrite;
    var (pool, got) := Checkout(m.pool, env.alive, env.dial);
    if got.Ok? {
      var e := Entry(env.freshId, got.value, env.made, []);
      AddSound(m, pool, e);
      hide FirstWriteFrame;
      NewEntryRuns(m.table, m.(pool := pool, table := m.table + [e]), got.value, data, env);
    }
  }

  lemma CheckoutPermits(p: Pool, alive: Conn -> bool, dial: nat -> Dial<Conn, nat>)
    ensures var r := Checkout(p, alive, dial);
            r.0.permits == if r.1.Ok? then p.permits - 1 else p.permits
  {}

  /** The result of a call on a transaction: success, or which error. */
  ghost predicate ResultOf<T>(result: Result<T, CallError>, ok: T, env: Env) {
    && (result == Ok(ok) <==> env.callOk && env.fits)
    && (result == Err(ResultTooLarge) <==> env.callOk && !env.fits)
    && (result == Err(CallFailed) <==> !env.callOk)
  }

  /** A write that names no transaction, after the sweep: what checkout answered and the call
      came to. Whatever fails after checkout closes the connection. */
  ghost predicate FirstWriteOutcome(before: Machine, r: Machine, result: Result<Id, CallError>, env: Env) {
    var (pool, got) := Checkout(before.pool, env.alive, env.dial);
    match got
    case Err(why) => result == Err(NoConnection(why)) && r == before.(pool := pool)
    case Ok(c) =>
      && ResultOf(result, env.freshId, env)
      && if result.Ok? then r.pool == pool && exists e :: e in r.table && e.id == env.freshId && e.conn == c
         else r.pool == pool.(closed := pool.closed + [c], permits := pool.permits + 1)
  }

  lemma FirstWriteEnds(m: Machine, data: nat, env: Env)
    requires Sound(m) && NewNames(m, env)
    ensures var (r, result) := FirstWrite(m, data, env); FirstWriteOutcome(m, r, result, env)
  {
    CheckoutSound(m.pool, Conns(m.table), env.alive, env.dial);
    hide Checkout, SoundPool, RunWrite;
    var (pool, got) := Checkout(m.pool, env.alive, env.dial);
    if got.Ok? {
      var e := Entry(env.freshId, got.value, env.made, []);
      AddSound(m, pool, e);
      NewEntryEnds(m.table, m.(pool := pool, table := m.table + [e]), got.value, data, env);
    }
  }

  lemma NewEntryEnds(before: seq<Entry>, made: Machine, c: Conn, data: nat, env: Env)
    requires Sound(made) && made.table == before + [Entry(env.freshId, c, env.made, [])]
    ensures Has(made.table, env.freshId)
    ensures var (r, result) := RunWrite(made, env.freshId, data, env);
            && ResultOf(result, env.freshId, env)
            && if result.Ok? then r.pool == made.pool && exists e :: e in r.table && e.id == env.freshId && e.conn == c
               else r.pool == made.pool.(closed := made.pool.closed + [c], permits := made.pool.permits + 1)
  {
    hide SameButFor, OnlyLoses, Without, Touch, Conns, SoundPool, Find;
    var e := made.table[|before|];
    assert e in made.table;
    UniqueId(made.table, e, Find(made.table, e.id));
    if env.callOk && env.fits {
      SuccessExtends(made, e.id, data, env);
    } else {
      FailureLoses(made, e.id, data, env);
    }
  }

  /** Every way a write request can end, whether it names a transaction or not. After the sweep,
      which comes first: a denied request and one with wrong parameters do nothing at all; a
      first write has the outcome of checkout and then of its call; one that names a transaction
      is refused if and only if it is not in the table, and else has the outcome of its call. */
  lemma WriteOutcomes(m: Machine, ttl: int, target: Option<Id>, data: nat, env: Env)
    requires Sound(m) && NewNames(m, env)
    ensures var swept := Expire(m, env.start - ttl, env.rollbackOk);
            var (r, result) := CallTransactional(m, ttl, target, data, env);
            if !env.authorised then r == swept && result == Err(Denied)
            else if !env.valid then r == swept && result == Err(BadRequest)
            else
              match target
              case None =>
                && r.durable == swept.durable
                && FirstWriteFrame(swept.table, swept.pool.permits, r, result, data, env)
                && FirstWriteOutcome(swept, r, result, env)
              case Some(id) =>
                && (result == Err(NotFound(id)) <==> !Has(swept.table, id))
                && if Has(swept.table, id) then ResultOf(result, id, env) else r == swept
  {
    hide Sound, Expire, FirstWrite, FirstWriteFrame, FirstWriteOutcome, NewNames, Has;
    SweptIsSound(m, env.start - ttl, env);
    var swept := Expire(m, env.start - ttl, env.rollbackOk);
    if target.None? {
      FirstWriteFrames(swept, data, env);
      FirstWriteEnds(swept, data, env);
    }
  }

  /** What a read does. A denied one and one with wrong parameters do nothing. No read touches
      the table or what is durable, and each leaves as many permits as there were. The connection
      it was lent becomes the last of the idle list if the call returned, and is closed if it
      raised. */
  lemma ReadFrames(m: Machine, env: Env)
    ensures var (r, result) := Read(m, env);
            && r.table == m.table && r.durable == m.durable && r.pool.permits == m.pool.permits
            && if !env.authorised then r == m && result == Err(Denied)
               else if !env.valid then r == m && result == Err(BadRequest)
               else
                 var (pool, got) := Checkout(m.pool, env.alive, env.dial);
                 match got
                 case Err(why) => result == Err(NoConnection(why)) && r.pool == pool
                 case Ok(c) =>
                   && ResultOf(result, (), env)
                   && r.pool.everOpened == pool.everOpened
                   && r.pool.idle == pool.idle + (if env.callOk then [c] else [])
                   && r.pool.closed == pool.closed + (if env.callOk then [] else [c])
  {
    CheckoutPermits(m.pool, env.alive, env.dial);
    hide Checkout;
    var (pool, got) := Checkout(m.pool, env.alive, env.dial);
    assert pool.idle + [] == pool.idle && pool.closed + [] == pool.closed;
  }

  /** A commit or a rollback. Without the right to end transactions nothing happens; an unknown
      ID leaves the table as the sweep left it. Otherwise exactly that transaction goes: when
      the RFC returns, its connection becomes idle, and a commit appends exactly its work to
      what is durable, a rollback nothing; when the RFC raises, its connection is closed, and
      only a commit that SAP applied all the same appends its work. */
  lemma FinishFrames(m: Machine, ttl: int, id: Id, commit: bool, env: Env)
    requires Sound(m)
    ensures var swept := Expire(m, env.start - ttl, env.rollbackOk);
            var (r, result) := Finish(m, ttl, id, commit, env);
            && swept.durable == m.durable
            && match result
               case Ok(named) =>
                 && env.authorised && env.callOk
                 && named == id && Has(swept.table, id) && OnlyLoses(swept.table, r.table, id)
                 && var e := Find(swept.table, id);
                    && r.durable == m.durable + (if commit then [e.work] else [])
                    && r.pool == swept.pool.(idle := swept.pool.idle + [e.conn], permits := swept.pool.permits + 1)
               case Err(error) =>
                 if error == CallFailed then
                   && env.authorised && !env.callOk
                   && Has(swept.table, id) && OnlyLoses(swept.table, r.table, id)
                   && var e := Find(swept.table, id);
                      && r.durable == m.durable + (if commit && env.applied then [e.work] else [])
                      && r.pool == swept.pool.(closed := swept.pool.closed + [e.conn],
                        permits := swept.pool.permits + 1)
                 else
                   || (error == Denied && !env.authorised && r == m)
                   || (error == NotFound(id) && env.authorised && !Has(swept.table, id) && r == swept)
  {
    hide Sound, Expire, Find, Has, Without;
    SweptDurable(m, env.start - ttl, env.rollbackOk);
    var swept := Expire(m, env.start - ttl, env.rollbackOk);
    WithoutKeeps(swept.table, {id});
    assert m.durable + [] == m.durable;
  }

  lemma SweptDurable(m: Machine, cutoff: int, ok: Id -> bool)
    ensures Expire(m, cutoff, ok).durable == m.durable
  {
    EndAllPool(m, Expired(m.table, cutoff), ok);
  }

  // ---- a server's life ----

  datatype Request = Write(target: Option<Id>, data: nat) | Ending(id: Id, commit: bool) | Reading

  function Serve(m: Machine, ttl: int, request: Request, env: Env): Machine {
    match request
    case Write(target, data) => CallTransactional(m, ttl, target, data, env).0
    case Ending(id, commit) => Finish(m, ttl, id, commit, env).0
    case Reading => Read(m, env).0
  }

  function ServeAll(m: Machine, ttl: int, requests: seq<(Request, Env)>): Machine {
    if requests == [] then m
    else
      var before := ServeAll(m, ttl, requests[..|requests| - 1]);
      Serve(before, ttl, requests[|requests| - 1].0, requests[|requests| - 1].1)
  }

  /** Whatever is opened or created during the requests has a new name at that moment. */
  ghost predicate NamesAreNew(m: Machine, ttl: int, requests: seq<(Request, Env)>) {
    forall k | 0 <= k < |requests| :: NewNames(ServeAll(m, ttl, requests[..k]), requests[k].1)
  }

  function Started(size: nat, retries: nat): Machine { Machine(Pool(size, retries, [], size, {}, []), [], []) }

  lemma CheckoutSize(p: Pool, alive: Conn -> bool, dial: nat -> Dial<Conn, nat>)
    ensures Checkout(p, alive, dial).0.size == p.size
  {}

  lemma SizeStays(m: Machine, ttl: int, request: Request, env: Env)
    ensures Serve(m, ttl, request, env).pool.size == m.pool.size
  {
    var cutoff := env.start - ttl;
    EndAllPool(m, Expired(m.table, cutoff), env.rollbackOk);
    var swept := Expire(m, cutoff, env.rollbackOk);
    assert swept.pool.size == m.pool.size;
    CheckoutSize(m.pool, env.alive, env.dial);
    CheckoutSize(swept.pool, env.alive, env.dial);
    hide Expire, Checkout, Without, Touch, Expired, ConnsWith, Find, Has;
  }

  lemma {:induction false} ServedIsSound(size: nat, retries: nat, ttl: int, requests: seq<(Request, Env)>)
    requires NamesAreNew(Started(size, retries), ttl, requests)
    ensures Sound(ServeAll(Started(size, retries), ttl, requests)) &&
            ServeAll(Started(size, retries), ttl, requests).pool.size == size
  {
    if requests != [] {
      var k := |requests| - 1;
      var prefix := requests[..k];
      forall i | 0 <= i < k
        ensures NewNames(ServeAll(Started(size, retries), ttl, prefix[..i]), prefix[i].1)
      {
        assert prefix[..i] == requests[..i];
      }
      ServedIsSound(size, retries, ttl, prefix);
      var before := ServeAll(Started(size, retries), ttl, prefix);
      var (request, env) := requests[k];
      assert requests[k].1 == env;
      hide Sound, NewNames;
      SizeStays(before, ttl, request, env);
      match request
      case Write(target, data) => CallTransactionalSound(before, ttl, target, data, env);
      case Ending(id, commit) => FinishSound(before, ttl, id, commit, env);
      case Reading => ReadSound(before, env);
    }
  }

  /** `invoker.close()` and then `pool.close_all()`, after any requests served one at a time and
      whichever of the final rollbacks fail: the table is empty, all permits are free, the idle list is
      empty, nothing more became durable, and every connection ever opened has been closed
      exactly once. */
  lemma ShutdownIsComplete(size: nat, retries: nat, ttl: int, requests: seq<(Request, Env)>, ok: Id -> bool)
    requires NamesAreNew(Started(size, retries), ttl, requests)
    ensures var m := ServeAll(Started(size, retries), ttl, requests);
            var closing := Shutdown(m, ok);
            var pool := CloseAll(closing.pool);
            && closing.table == [] && closing.durable == m.durable
            && pool.permits == size && pool.idle == []
            && multiset(pool.closed) == multiset(pool.everOpened) && pool.everOpened == m.pool.everOpened
  {
    var m := ServeAll(Started(size, retries), ttl, requests);
    ServedIsSound(size, retries, ttl, requests);
    EndAllEffect(m, m.table, ok);
    WithoutAll(m.table, Ids(m.table));
    var closing := Shutdown(m, ok);
    assert multiset(closing.pool.closed + closing.pool.idle) == multiset(closing.pool.closed) +
      multiset(closing.pool.idle);
  }
}
