/** The abstract machine behind one request at a time: a table of open transactions
    (connection, staged writes, last use), a pool, and SAP's durable log. The classes
    ConnectionPool and ExecutionInvoker are proved to behave like it. */
module TransactionModel {
  import opened Common
  import opened Retry
  import P = ProtocolState

  type Conn = P.Conn
  type Id = P.Id
  type Write = P.Write

  // ---- the pool ----

  /** `everOpened` is every connection there ever was, `closed` those closed, in order;
      `retries` is settings.max_retries. */
  datatype Pool = Pool(
    size: nat, retries: nat, idle: seq<Conn>, permits: int, everOpened: set<Conn>, closed: seq<Conn>)

  datatype PoolError = PoolTimeout | OpenFailed(code: nat)

  /** What is left of the idle list when its dead end is cut off. */
  function Trim(idle: seq<Conn>, alive: Conn -> bool): (kept: seq<Conn>)
    ensures kept <= idle
  {
    if idle == [] || alive(idle[|idle| - 1]) then idle else Trim(idle[..|idle| - 1], alive)
  }

  /** The dead end, last connection first. */
  function DeadEnd(idle: seq<Conn>, alive: Conn -> bool): seq<Conn> {
    if idle == [] || alive(idle[|idle| - 1]) then []
    else [idle[|idle| - 1]] + DeadEnd(idle[..|idle| - 1], alive)
  }

  /** What opening a connection with retries comes to. */
  function Outcome(dial: nat -> Dial<Conn, nat>, retries: nat): Result<Conn, nat> {
    Dialled(dial(EndingAttempt(Redials(dial), retries)))
  }

  function Checkout(p: Pool, alive: Conn -> bool, dial: nat -> Dial<Conn, nat>): (Pool, Result<Conn, PoolError>) {
    if p.permits <= 0 then (p, Err(PoolTimeout))
    else
      var kept := Trim(p.idle, alive);
      var q := p.(idle := kept, closed := p.closed + DeadEnd(p.idle, alive));
      if kept != [] then
        (q.(idle := kept[..|kept| - 1], permits := p.permits - 1), Ok(kept[|kept| - 1]))
      else match Outcome(dial, p.retries)
        case Ok(c) => (q.(everOpened := p.everOpened + {c}, permits := p.permits - 1), Ok(c))
        case Err(code) => (q, Err(OpenFailed(code)))
  }

  function GiveBack(p: Pool, c: Conn, reusable: bool): Pool {
    if reusable then p.(idle := p.idle + [c], permits := p.permits + 1)
    else p.(closed := p.closed + [c], permits := p.permits + 1)
  }

  function CloseAll(p: Pool): Pool { p.(idle := [], closed := p.closed + p.idle) }

  /** `lent` are the connections in use. Every connection ever opened is idle, lent or closed,
      in exactly one of these places and once; permits add up; the pool is bounded. */
  ghost predicate SoundPool(p: Pool, lent: multiset<Conn>) {
    && multiset(p.idle) + lent + multiset(p.closed) == multiset(p.everOpened)
    && p.permits >= 0
    && p.permits + |lent| == p.size
    && |p.idle| + |lent| <= p.size
  }

  lemma LastOf(s: seq<Conn>)
    requires s != []
    ensures multiset(s) == multiset(s[..|s| - 1]) + multiset{s[|s| - 1]}
  {
    assert s == s[..|s| - 1] + [s[|s| - 1]];
  }

  lemma {:induction false} TrimSplits(idle: seq<Conn>, alive: Conn -> bool)
    ensures multiset(idle) == multiset(Trim(idle, alive)) + multiset(DeadEnd(idle, alive))
  {
    if idle != [] && !alive(idle[|idle| - 1]) {
      LastOf(idle);
      TrimSplits(idle[..|idle| - 1], alive);
    }
  }

  /** `checkout` hands out the last live idle connection; it closes the dead ones behind it
      and looks at no other. */
  lemma {:induction false} TrimEndsAlive(idle: seq<Conn>, alive: Conn -> bool)
    ensures var kept := Trim(idle, alive);
            && (kept != [] ==> alive(kept[|kept| - 1]))
            && (forall i | |kept| <= i < |idle| :: !alive(idle[i]))
            && |DeadEnd(idle, alive)| == |idle| - |kept|
            && forall i | 0 <= i < |idle| - |kept| :: DeadEnd(idle, alive)[i] == idle[|idle| - 1 - i]
  {
    if idle != [] && !alive(idle[|idle| - 1]) {
      TrimEndsAlive(idle[..|idle| - 1], alive);
    }
  }

  ghost predicate NewConn(p: Pool, dial: nat -> Dial<Conn, nat>) {
    Outcome(dial, p.retries).Ok? ==> Outcome(dial, p.retries).value !in p.everOpened
  }

  lemma TrimmedSound(p: Pool, lent: multiset<Conn>, alive: Conn -> bool)
    requires SoundPool(p, lent)
    ensures SoundPool(p.(idle := Trim(p.idle, alive), closed := p.closed + DeadEnd(p.idle, alive)), lent)
  {
    TrimSplits(p.idle, alive);
    hide Trim, DeadEnd;
    assert multiset(p.closed + DeadEnd(p.idle, alive)) == multiset(p.closed) + multiset(DeadEnd(p.idle, alive));
  }

  lemma CheckoutSound(p: Pool, lent: multiset<Conn>, alive: Conn -> bool, dial: nat -> Dial<Conn, nat>)
    requires SoundPool(p, lent) && NewConn(p, dial)
    ensures var r := Checkout(p, alive, dial);
            && r.0.size == p.size
            && match r.1
               case Ok(c) => c !in lent && c in r.0.everOpened && SoundPool(r.0, lent + multiset{c})
               case Err(_) => SoundPool(r.0, lent)
  {
    var kept := Trim(p.idle, alive);
    var q := p.(idle := kept, closed := p.closed + DeadEnd(p.idle, alive));
    TrimmedSound(p, lent, alive);
    hide SoundPool, Trim, DeadEnd, Outcome;
    if p.permits > 0 {
      if kept != [] {
        LendIdle(q, lent);
      } else if Outcome(dial, p.retries).Ok? {
        LendNew(q, lent, Outcome(dial, p.retries).value);
      }
    }
  }

  lemma LendIdle(q: Pool, lent: multiset<Conn>)
    requires SoundPool(q, lent) && q.idle != [] && q.permits > 0
    ensures var c := q.idle[|q.idle| - 1];
            && c !in lent && c in q.everOpened
            && SoundPool(q.(idle := q.idle[..|q.idle| - 1], permits := q.permits - 1), lent + multiset{c})
  {
    var c := q.idle[|q.idle| - 1];
    LastOf(q.idle);
    assert multiset(q.everOpened)[c] <= 1;
    assert c in multiset(q.everOpened);
  }

  lemma LendNew(q: Pool, lent: multiset<Conn>, c: Conn)
    requires SoundPool(q, lent) && q.idle == [] && q.permits > 0 && c !in q.everOpened
    ensures c !in lent && SoundPool(q.(everOpened := q.everOpened + {c}, permits := q.permits - 1), lent + multiset{c})
  {
    assert multiset(q.everOpened + {c}) == multiset(q.everOpened) + multiset{c};
    assert c !in multiset(q.everOpened);
  }

  lemma GiveBackSound(p: Pool, lent: multiset<Conn>, c: Conn, reusable: bool)
    requires SoundPool(p, lent) && c in lent
    ensures SoundPool(GiveBack(p, c, reusable), lent - multiset{c})
  {
    assert lent == (lent - multiset{c}) + multiset{c};
    assert multiset(p.idle + [c]) == multiset(p.idle) + multiset{c};
    assert multiset(p.closed + [c]) == multiset(p.closed) + multiset{c};
  }

  lemma ReturnSound(p: Pool, lent: multiset<Conn>, c: Conn, reusable: bool)
    requires SoundPool(p, lent + multiset{c})
    ensures SoundPool(GiveBack(p, c, reusable), lent)
  {
    GiveBackSound(p, lent + multiset{c}, c, reusable);
    assert lent + multiset{c} - multiset{c} == lent;
  }

  // ---- the table ----

  datatype Entry = Entry(id: Id, conn: Conn, lastUsed: int, work: seq<Write>)

  datatype Machine = Machine(pool: Pool, table: seq<Entry>, durable: seq<seq<Write>>)

  ghost predicate Distinct(table: seq<Entry>) {
    forall i, j | 0 <= i < j < |table| :: table[i].id != table[j].id
  }

  predicate Has(table: seq<Entry>, id: Id) { exists e | e in table :: e.id == id }

  function Find(table: seq<Entry>, id: Id): (e: Entry)
    requires Has(table, id)
    ensures e in table && e.id == id
  {
    if table[0].id == id then table[0] else Find(table[1..], id)
  }

  /** The table without the entries of `gone`. */
  function Without(table: seq<Entry>, gone: set<Id>): seq<Entry> {
    if table == [] then []
    else (if table[0].id in gone then [] else [table[0]]) + Without(table[1..], gone)
  }

  function Conns(table: seq<Entry>): multiset<Conn> {
    if table == [] then multiset{} else multiset{table[0].conn} + Conns(table[1..])
  }

  function Ids(table: seq<Entry>): set<Id> { set e | e in table :: e.id }

  lemma {:induction false} WithoutKeeps(table: seq<Entry>, gone: set<Id>)
    ensures forall e :: e in Without(table, gone) <==> e in table && e.id !in gone
    ensures Distinct(table) ==> Distinct(Without(table, gone))
  {
    if table != [] {
      WithoutKeeps(table[1..], gone);
      var rest := Without(table[1..], gone);
      var mine := if table[0].id in gone then [] else [table[0]];
      assert Without(table, gone) == mine + rest;
      if Distinct(table) {
        forall i | 0 <= i < |rest|
          ensures rest[i].id != table[0].id
        {
          assert rest[i] in table[1..];
        }
      }
    }
  }

  lemma {:induction false} WithoutTwice(table: seq<Entry>, a: set<Id>, b: set<Id>)
    ensures Without(Without(table, a), b) == Without(table, a + b)
  {
    if table != [] {
      WithoutTwice(table[1..], a, b);
      var rest := Without(table[1..], a);
      if table[0].id !in a {
        assert ([table[0]] + rest)[1..] == rest;
      } else {
        assert [] + rest == rest;
      }
    }
  }

  lemma {:induction false} WithoutNone(table: seq<Entry>, gone: set<Id>)
    requires forall e | e in table :: e.id !in gone
    ensures Without(table, gone) == table
  {
    if table != [] {
      assert forall e | e in table[1..] :: e in table;
      WithoutNone(table[1..], gone);
    }
  }

  lemma {:induction false} WithoutAll(table: seq<Entry>, gone: set<Id>)
    requires forall e | e in table :: e.id in gone
    ensures Without(table, gone) == []
  {
    if table != [] {
      assert forall e | e in table[1..] :: e in table;
      WithoutAll(table[1..], gone);
    }
  }

  /** Taking one entry out takes its connection out of the lent ones. */
  lemma {:induction false} WithoutOne(table: seq<Entry>, e: Entry)
    requires Distinct(table) && e in table
    ensures Conns(table) == Conns(Without(table, {e.id})) + multiset{e.conn}
    ensures |Without(table, {e.id})| == |table| - 1
  {
    var rest := table[1..];
    if table[0].id == e.id {
      assert table[0] == e;
      forall x | x in rest
        ensures x.id != e.id
      {}
      WithoutNone(rest, {e.id});
      assert Without(table, {e.id}) == rest;
    } else {
      assert e in rest;
      WithoutOne(rest, e);
      assert Without(table, {e.id}) == [table[0]] + Without(rest, {e.id});
      assert ([table[0]] + Without(rest, {e.id}))[1..] == Without(rest, {e.id});
    }
  }

  lemma {:induction false} ConnsAppend(a: seq<Entry>, e: Entry)
    ensures Conns(a + [e]) == Conns(a) + multiset{e.conn}
  {
    if a == [] {
      assert [e][1..] == [];
    } else {
      ConnsAppend(a[1..], e);
      assert (a + [e])[1..] == a[1..] + [e];
    }
  }

  lemma {:induction false} ConnsOf(table: seq<Entry>)
    ensures |Conns(table)| == |table|
    ensures forall e | e in table :: e.conn in Conns(table)
  {
    if table != [] { ConnsOf(table[1..]); }
  }

  ghost predicate Sound(m: Machine) {
    Distinct(m.table) && SoundPool(m.pool, Conns(m.table))
  }

  // ---- the end of transactions ----

  /** The transaction leaves the table and its connection goes back to the pool. */
  function End(m: Machine, e: Entry, reusable: bool): Machine {
    m.(table := Without(m.table, {e.id}), pool := GiveBack(m.pool, e.conn, reusable))
  }

  /** All of `es` are rolled back, in that order; `ok(id)` says whether the rollback of `id`
      succeeded. */
  function EndAll(m: Machine, es: seq<Entry>, ok: Id -> bool): Machine
    decreases |es|
  {
    if es == [] then m else EndAll(End(m, es[0], ok(es[0].id)), es[1..], ok)
  }

  function Expired(table: seq<Entry>, cutoff: int): seq<Entry> {
    if table == [] then []
    else (if table[0].lastUsed < cutoff then [table[0]] else []) + Expired(table[1..], cutoff)
  }

  function Expire(m: Machine, cutoff: int, ok: Id -> bool): Machine {
    EndAll(m, Expired(m.table, cutoff), ok)
  }

  function Shutdown(m: Machine, ok: Id -> bool): Machine { EndAll(m, m.table, ok) }

  /** The connections of those of `es` whose rollback ended as `outcome`, in order. */
  function ConnsWith(es: seq<Entry>, ok: Id -> bool, outcome: bool): seq<Conn> {
    if es == [] then []
    else (if ok(es[0].id) == outcome then [es[0].conn] else []) + ConnsWith(es[1..], ok, outcome)
  }

  lemma EndSound(m: Machine, e: Entry, reusable: bool)
    requires Sound(m) && e in m.table
    ensures Sound(End(m, e, reusable))
  {
    WithoutOne(m.table, e);
    WithoutKeeps(m.table, {e.id});
    GiveBackSound(m.pool, Conns(m.table), e.conn, reusable);
    assert Conns(m.table) - multiset{e.conn} == Conns(Without(m.table, {e.id}));
  }

  lemma {:induction false} EndAllPool(m: Machine, es: seq<Entry>, ok: Id -> bool)
    ensures EndAll(m, es, ok).pool == m.pool.(
              idle := m.pool.idle + ConnsWith(es, ok, true),
              closed := m.pool.closed + ConnsWith(es, ok, false),
              permits := m.pool.permits + |es|)
    ensures EndAll(m, es, ok).durable == m.durable
    decreases |es|
  {
    if es != [] {
      EndAllPool(End(m, es[0], ok(es[0].id)), es[1..], ok);
    }
  }

  lemma {:induction false} EndAllTable(m: Machine, es: seq<Entry>, ok: Id -> bool)
    requires Sound(m) && Distinct(es) && forall e | e in es :: e in m.table
    ensures Sound(EndAll(m, es, ok)) && EndAll(m, es, ok).table == Without(m.table, Ids(es))
    decreases |es|
  {
    hide Sound, GiveBack;
    if es == [] {
      WithoutNone(m.table, {});
      assert Ids(es) == {};
    } else {
      var e := es[0];
      var m1 := End(m, e, ok(e.id));
      EndSound(m, e, ok(e.id));
      WithoutKeeps(m.table, {e.id});
      EndAllTable(m1, es[1..], ok);
      WithoutTwice(m.table, {e.id}, Ids(es[1..]));
      assert {e.id} + Ids(es[1..]) == Ids(es);
    }
  }

  /** Rolling back a list of transactions removes exactly those; each one's connection goes
      back once, to the idle list if its rollback succeeded and to be closed if not; and
      nothing becomes durable. */
  lemma EndAllEffect(m: Machine, es: seq<Entry>, ok: Id -> bool)
    requires Sound(m) && Distinct(es) && forall e | e in es :: e in m.table
    ensures var r := EndAll(m, es, ok);
            && Sound(r)
            && r.table == Without(m.table, Ids(es))
            && r.durable == m.durable
            && r.pool == m.pool.(idle := m.pool.idle + ConnsWith(es, ok, true),
                                 closed := m.pool.closed + ConnsWith(es, ok, false),
                                 permits := m.pool.permits + |es|)
  {
    EndAllPool(m, es, ok);
    EndAllTable(m, es, ok);
  }

  lemma {:induction false} ExpiredAre(table: seq<Entry>, cutoff: int)
    requires Distinct(table)
    ensures forall e :: e in Expired(table, cutoff) <==> e in table && e.lastUsed < cutoff
    ensures Distinct(Expired(table, cutoff))
  {
    if table != [] {
      ExpiredAre(table[1..], cutoff);
      var rest := Expired(table[1..], cutoff);
      forall i | 0 <= i < |rest|
        ensures rest[i].id != table[0].id
      {
        assert rest[i] in table[1..];
      }
    }
  }

  lemma UniqueId(table: seq<Entry>, a: Entry, b: Entry)
    requires Distinct(table) && a in table && b in table && a.id == b.id
    ensures a == b
  {}

  /** A sweep leaves exactly the entries used at or after the cutoff, in order and unchanged;
      each of the others is rolled back once and gives its connection back once, reusable if
      and only if the rollback succeeded. */
  lemma ExpiryIsComplete(m: Machine, cutoff: int, ok: Id -> bool)
    requires Sound(m)
    ensures var r, gone := Expire(m, cutoff, ok), Expired(m.table, cutoff);
            && Sound(r)
            && (forall e :: e in r.table <==> e in m.table && e.lastUsed >= cutoff)
            && r.table == Without(m.table, Ids(gone))
            && r.durable == m.durable
            && r.pool == m.pool.(idle := m.pool.idle + ConnsWith(gone, ok, true),
                                 closed := m.pool.closed + ConnsWith(gone, ok, false),
                                 permits := m.pool.permits + |gone|)
  {
    ExpiredAre(m.table, cutoff);
    var gone := Expired(m.table, cutoff);
    EndAllEffect(m, gone, ok);
    WithoutKeeps(m.table, Ids(gone));
    forall e | e in m.table && e.lastUsed >= cutoff
      ensures e.id !in Ids(gone)
    {
      if e.id in Ids(gone) {
        var x :| x in gone && x.id == e.id;
        UniqueId(m.table, e, x);
      }
    }
  }

  // ---- requests ----

  /** What the outside does during one request: the clock, policy and validation, the state
      of connections, the names that are new, and the outcome of each call. `left` is the
      uncommitted work that a failed call leaves on its connection. */
  datatype Env = Env(
    start: int, made: int, finished: int,
    authorised: bool, valid: bool,
    alive: Conn -> bool, dial: nat -> Dial<Conn, nat>, freshId: Id,
    callOk: bool, fits: bool, applied: bool, left: seq<Write>,
    rollbackOk: Id -> bool)

  datatype CallError =
    | Denied | BadRequest | NotFound(id: Id) | NoConnection(why: PoolError) | CallFailed | ResultTooLarge

  /** A successful write: its entry gets the write and a new last use. */
  function Touch(table: seq<Entry>, id: Id, w: Write, now: int): seq<Entry> {
    if table == [] then []
    else [if table[0].id == id then table[0].(work := table[0].work + [w], lastUsed := now) else table[0]]
         + Touch(table[1..], id, w, now)
  }

  function RunWrite(m: Machine, id: Id, data: nat, env: Env): (Machine, Result<Id, CallError>)
    requires Has(m.table, id)
  {
    if env.callOk && env.fits then
      (m.(table := Touch(m.table, id, P.Write(id, data), env.finished)), Ok(id))
    else
      (End(m, Find(m.table, id), false), Err(if env.callOk then ResultTooLarge else CallFailed))
  }

  /** A first write takes a connection and a place in the table. */
  function FirstWrite(m: Machine, data: nat, env: Env): (Machine, Result<Id, CallError>) {
    var (pool, got) := Checkout(m.pool, env.alive, env.dial);
    match got
    case Err(why) => (m.(pool := pool), Err(NoConnection(why)))
    case Ok(c) =>
      var made := m.(pool := pool, table := m.table + [Entry(env.freshId, c, env.made, [])]);
      assert made.table[|m.table|].id == env.freshId;
      RunWrite(made, env.freshId, data, env)
  }

  function CallTransactional(m: Machine, ttl: int, target: Option<Id>, data: nat, env: Env): (Machine,
      Result<Id, CallError>) {
    var swept := Expire(m, env.start - ttl, env.rollbackOk);
    if !env.authorised then (swept, Err(Denied))
    else if !env.valid then (swept, Err(BadRequest))
    else match target
      case Some(id) =>
        if Has(swept.table, id) then RunWrite(swept, id, data, env) else (swept, Err(NotFound(id)))
      case None => FirstWrite(swept, data, env)
  }

  /** The commit or rollback RFC of a removed transaction, and the release of its connection. */
  function EndCall(m: Machine, e: Entry, commit: bool, env: Env): (Machine, Result<Id, CallError>) {
    var after := End(m, e, env.callOk);
    (if commit && (env.callOk || env.applied) then after.(durable := m.durable + [e.work]) else after,
     if env.callOk then Ok(e.id) else Err(CallFailed))
  }

  function Finish(m: Machine, ttl: int, id: Id, commit: bool, env: Env): (Machine, Result<Id, CallError>) {
    if !env.authorised then (m, Err(Denied))
    else
      var swept := Expire(m, env.start - ttl, env.rollbackOk);
      if Has(swept.table, id) then EndCall(swept, Find(swept.table, id), commit, env)
      else (swept, Err(NotFound(id)))
  }

  /** A read borrows a connection for one call. */
  function Read(m: Machine, env: Env): (Machine, Result<(), CallError>) {
    if !env.authorised then (m, Err(Denied))
    else if !env.valid then (m, Err(BadRequest))
    else
      var (pool, got) := Checkout(m.pool, env.alive, env.dial);
      match got
      case Err(why) => (m.(pool := pool), Err(NoConnection(why)))
      case Ok(c) =>
        (m.(pool := GiveBack(pool, c, env.callOk)),
         if !env.callOk then Err(CallFailed) else if env.fits then Ok(()) else Err(ResultTooLarge))
  }

  // ---- every request keeps the machine sound ----

  ghost predicate NewNames(m: Machine, env: Env) {
    NewConn(m.pool, env.dial) && !Has(m.table, env.freshId)
  }

  lemma {:induction false} TouchKeeps(table: seq<Entry>, id: Id, w: Write, now: int)
    ensures |Touch(table, id, w, now)| == |table|
    ensures forall i | 0 <= i < |table| :: Touch(table, id, w, now)[i] ==
              if table[i].id == id then table[i].(work := table[i].work + [w], lastUsed := now) else table[i]
    ensures Conns(Touch(table, id, w, now)) == Conns(table)
  {
    if table != [] {
      TouchKeeps(table[1..], id, w, now);
      assert Touch(table, id, w, now)[1..] == Touch(table[1..], id, w, now);
    }
  }

  lemma TouchSound(m: Machine, id: Id, w: Write, now: int)
    requires Sound(m)
    ensures Sound(m.(table := Touch(m.table, id, w, now)))
  {
    TouchKeeps(m.table, id, w, now);
  }

  lemma RunWriteSound(m: Machine, id: Id, data: nat, env: Env)
    requires Sound(m) && Has(m.table, id)
    ensures Sound(RunWrite(m, id, data, env).0)
  {
    TouchSound(m, id, P.Write(id, data), env.finished);
    EndSound(m, Find(m.table, id), false);
  }

  lemma AddSound(m: Machine, pool: Pool, e: Entry)
    requires Sound(m) && !Has(m.table, e.id) && SoundPool(pool, Conns(m.table) + multiset{e.conn})
    ensures Sound(m.(pool := pool, table := m.table + [e]))
  {
    ConnsAppend(m.table, e);
  }

  lemma FirstWriteSound(m: Machine, data: nat, env: Env)
    requires Sound(m) && NewNames(m, env)
    ensures Sound(FirstWrite(m, data, env).0)
  {
    CheckoutSound(m.pool, Conns(m.table), env.alive, env.dial);
    hide Checkout, SoundPool, RunWrite;
    var (pool, got) := Checkout(m.pool, env.alive, env.dial);
    if got.Ok? {
      var e := Entry(env.freshId, got.value, env.made, []);
      AddSound(m, pool, e);
      var made := m.(pool := pool, table := m.table + [e]);
      assert e in made.table;
      RunWriteSound(made, env.freshId, data, env);
    }
  }

  lemma SweptIsSound(m: Machine, cutoff: int, env: Env)
    requires Sound(m)
    ensures Sound(Expire(m, cutoff, env.rollbackOk))
    ensures NewNames(m, env) ==> NewNames(Expire(m, cutoff, env.rollbackOk), env)
  {
    ExpiryIsComplete(m, cutoff, env.rollbackOk);
    hide Sound, Expire, Without, ConnsWith, Expired;
  }

  lemma CallTransactionalSound(m: Machine, ttl: int, target: Option<Id>, data: nat, env: Env)
    requires Sound(m) && NewNames(m, env)
    ensures Sound(CallTransactional(m, ttl, target, data, env).0)
  {
    hide Sound, Expire, FirstWrite, RunWrite, NewNames;
    SweptIsSound(m, env.start - ttl, env);
    var swept := Expire(m, env.start - ttl, env.rollbackOk);
    if target.None? {
      FirstWriteSound(swept, data, env);
    } else if Has(swept.table, target.value) {
      RunWriteSound(swept, target.value, data, env);
    }
  }

  lemma EndCallSound(m: Machine, e: Entry, commit: bool, env: Env)
    requires Sound(m) && e in m.table
    ensures Sound(EndCall(m, e, commit, env).0)
  {
    EndSound(m, e, env.callOk);
  }

  lemma FinishSound(m: Machine, ttl: int, id: Id, commit: bool, env: Env)
    requires Sound(m)
    ensures Sound(Finish(m, ttl, id, commit, env).0)
  {
    hide Sound, Expire, Find, Has, EndCall;
    SweptIsSound(m, env.start - ttl, env);
    var swept := Expire(m, env.start - ttl, env.rollbackOk);
    if Has(swept.table, id) { EndCallSound(swept, Find(swept.table, id), commit, env); }
  }

  lemma ReadSound(m: Machine, env: Env)
    requires Sound(m) && NewNames(m, env)
    ensures Sound(Read(m, env).0)
  {
    CheckoutSound(m.pool, Conns(m.table), env.alive, env.dial);
    var (pool, got) := Checkout(m.pool, env.alive, env.dial);
    if got.Ok? {
      ReturnSound(pool, Conns(m.table), got.value, env.callOk);
    }
  }
}
