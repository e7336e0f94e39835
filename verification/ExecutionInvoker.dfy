/** ExecutionInvoker, one request at a time: its table is a Python dict, so it remembers the
    order of insertion. Every method is proved to act on the abstract machine. */
module ExecutionInvokers {
  import opened Common
  import opened ConnectionPools
  import opened Retry
  import M = TransactionModel
  import P = ProtocolState
  import S = ProtocolSteps

  type Id = P.Id

  /** _ActiveTransaction; with one request at a time its lock is free. */
  datatype Active = Active(connection: Conn, lastUsed: int)

  // ---- the table as the abstract machine sees it ----

  ghost function EntryOf(id: Id, x: Active, staged: Work): M.Entry {
    M.Entry(id, x.connection, x.lastUsed, S.StagedOn(staged, x.connection))
  }

  ghost function TableOf(order: seq<Id>, transactions: map<Id, Active>, staged: Work): seq<M.Entry>
    requires forall id | id in order :: id in transactions
  {
    if order == [] then []
    else [EntryOf(order[0], transactions[order[0]], staged)] + TableOf(order[1..], transactions, staged)
  }

  /** `del d[id]` on the order of the keys. */
  function Drop(order: seq<Id>, id: Id): seq<Id> {
    if order == [] then [] else (if order[0] == id then [] else [order[0]]) + Drop(order[1..], id)
  }

  lemma {:induction false} DropKeeps(order: seq<Id>, id: Id)
    ensures forall i :: i in Drop(order, id) <==> i in order && i != id
    ensures NoDup(order) ==> NoDup(Drop(order, id))
  {
    if order != [] {
      DropKeeps(order[1..], id);
      var rest := Drop(order[1..], id);
      if NoDup(order) {
        forall i | 0 <= i < |rest|
          ensures rest[i] != order[0]
        {
          assert rest[i] in order[1..];
        }
      }
    }
  }

  lemma {:induction false} TableEntries(order: seq<Id>, transactions: map<Id, Active>, staged: Work)
    requires forall id | id in order :: id in transactions
    ensures var t := TableOf(order, transactions, staged);
            && |t| == |order|
            && (forall i | 0 <= i < |order| :: t[i] == EntryOf(order[i], transactions[order[i]], staged))
  {
    if order != [] { TableEntries(order[1..], transactions, staged); }
  }

  /** The table depends only on the transactions listed and on their connections. */
  lemma {:induction false} TableSame(order: seq<Id>, before: map<Id, Active>, staged: Work, after: map<Id, Active>,
      staged': Work)
    requires forall id | id in order :: id in before && id in after && after[id] == before[id]
    requires forall id | id in order ::
               S.StagedOn(staged', before[id].connection) == S.StagedOn(staged, before[id].connection)
    ensures TableOf(order, after, staged') == TableOf(order, before, staged)
  {
    if order != [] { TableSame(order[1..], before, staged, after, staged'); }
  }

  lemma {:induction false} TableDrop(order: seq<Id>, before: map<Id, Active>, staged: Work, id: Id, staged': Work)
    requires forall i | i in order :: i in before
    requires forall i | i in order && i != id ::
               S.StagedOn(staged', before[i].connection) == S.StagedOn(staged, before[i].connection)
    ensures forall i | i in Drop(order, id) :: i in before - {id}
    ensures TableOf(Drop(order, id), before - {id}, staged') == M.Without(TableOf(order, before, staged), {id})
  {
    DropKeeps(order, id);
    if order != [] {
      TableDrop(order[1..], before, staged, id, staged');
      var t := TableOf(order, before, staged);
      assert t[1..] == TableOf(order[1..], before, staged);
      if order[0] != id {
        var d := Drop(order, id);
        assert d[1..] == Drop(order[1..], id);
      } else {
        assert Drop(order, id) == Drop(order[1..], id);
      }
    }
  }

  lemma {:induction false} TableTouch(order: seq<Id>, before: map<Id, Active>, staged: Work, id: Id, now: int,
      w: P.Write, staged': Work)
    requires id in before && forall i | i in order :: i in before
    requires S.StagedOn(staged', before[id].connection) == S.StagedOn(staged, before[id].connection) + [w]
    requires forall i | i in order && i != id ::
               S.StagedOn(staged', before[i].connection) == S.StagedOn(staged, before[i].connection)
    ensures TableOf(order, before[id := before[id].(lastUsed := now)], staged') ==
            M.Touch(TableOf(order, before, staged), id, w, now)
  {
    if order != [] {
      TableTouch(order[1..], before, staged, id, now, w, staged');
      var t := TableOf(order, before, staged);
      assert t[1..] == TableOf(order[1..], before, staged);
    }
  }

  lemma {:induction false} TableAdd(order: seq<Id>, before: map<Id, Active>, staged: Work, id: Id, x: Active,
      staged': Work)
    requires id !in order && forall i | i in order :: i in before
    requires forall i | i in order ::
               S.StagedOn(staged', before[i].connection) == S.StagedOn(staged, before[i].connection)
    ensures TableOf(order + [id], before[id := x], staged') ==
            TableOf(order, before, staged) + [EntryOf(id, x, staged')]
  {
    if order == [] {
      assert [id][1..] == [];
    } else {
      TableAdd(order[1..], before, staged, id, x, staged');
      assert (order + [id])[1..] == order[1..] + [id];
    }
  }

  // ---- connections in the table are private ----

  lemma PrivateConn(m: M.Machine, e: M.Entry)
    requires M.Sound(m) && e in m.table
    ensures e.conn !in m.pool.idle
    ensures forall x | x in m.table && x.id != e.id :: x.conn != e.conn
  {
    M.WithoutOne(m.table, e);
    M.ConnsOf(m.table);
    assert multiset(m.pool.everOpened)[e.conn] <= 1;
    assert e.conn !in multiset(m.pool.idle);
    M.WithoutKeeps(m.table, {e.id});
    M.ConnsOf(M.Without(m.table, {e.id}));
    forall x | x in m.table && x.id != e.id
      ensures x.conn != e.conn
    {
      assert x in M.Without(m.table, {e.id});
    }
  }

  lemma {:induction false} EndAllSnoc(m: M.Machine, es: seq<M.Entry>, e: M.Entry, ok: Id -> bool)
    ensures M.EndAll(m, es + [e], ok) == M.End(M.EndAll(m, es, ok), e, ok(e.id))
    decreases |es|
  {
    if es == [] {
      assert [e][1..] == [];
    } else {
      assert (es + [e])[1..] == es[1..] + [e];
      EndAllSnoc(M.End(m, es[0], ok(es[0].id)), es[1..], e, ok);
    }
  }

  lemma {:induction false} ExpiredSnoc(es: seq<M.Entry>, e: M.Entry, cutoff: int)
    ensures M.Expired(es + [e], cutoff) == M.Expired(es, cutoff) + (if e.lastUsed < cutoff then [e] else [])
  {
    if es == [] {
      assert [e][1..] == [];
    } else {
      assert (es + [e])[1..] == es[1..] + [e];
      ExpiredSnoc(es[1..], e, cutoff);
    }
  }

  /** The entry of a listed transaction. */
  lemma Lookup(order: seq<Id>, transactions: map<Id, Active>, m: M.Machine, staged: Work, e: M.Entry)
    requires (forall i | i in order :: i in transactions) && m.table == TableOf(order, transactions, staged)
    requires e in m.table
    ensures e.id in order && e == EntryOf(e.id, transactions[e.id], staged)
  {
    TableEntries(order, transactions, staged);
    var k :| 0 <= k < |m.table| && m.table[k] == e;
    assert order[k] == e.id;
  }

  lemma OtherConn(order: seq<Id>, transactions: map<Id, Active>, m: M.Machine, staged: Work, e: M.Entry, i: Id)
    requires (forall j | j in order :: j in transactions)
    requires m.table == TableOf(order, transactions, staged) && M.Sound(m)
    requires e in m.table && i in order && i != e.id
    ensures transactions[i].connection != e.conn
  {
    TableEntries(order, transactions, staged);
    PrivateConn(m, e);
    var k :| 0 <= k < |order| && order[k] == i;
    assert m.table[k] in m.table;
  }

  /** Taking `e` out of the dict and giving its connection back, whatever the RFC before that
      left on the connection. */
  lemma EndedMachine(order: seq<Id>, transactions: map<Id, Active>, m: M.Machine, staged: Work, e: M.Entry,
      staged': Work, ok: bool)
    requires NoDup(order) && (forall i :: i in order <==> i in transactions)
    requires m.table == TableOf(order, transactions, staged) && M.Sound(m) && e in m.table
    requires forall c: Conn | c != e.conn :: S.StagedOn(staged', c) == S.StagedOn(staged, c)
    ensures e.id in transactions && e == EntryOf(e.id, transactions[e.id], staged)
    ensures NoDup(Drop(order, e.id)) && forall i :: i in Drop(order, e.id) <==> i in transactions - {e.id}
    ensures e.conn !in m.pool.idle
    ensures forall i | i in transactions && i != e.id :: transactions[i].connection != e.conn
    ensures M.Sound(M.End(m, e, ok)) &&
            M.End(m, e, ok).table == TableOf(Drop(order, e.id), transactions - {e.id}, staged')
  {
    Lookup(order, transactions, m, staged, e);
    PrivateConn(m, e);
    M.EndSound(m, e, ok);
    DropKeeps(order, e.id);
    hide M.Sound, M.Without, TableOf;
    forall i | i in transactions && i != e.id
      ensures transactions[i].connection != e.conn
    {
      OtherConn(order, transactions, m, staged, e, i);
    }
    TableDrop(order, transactions, staged, e.id, staged');
  }

  /** The table after a successful write on `e`. */
  lemma WrittenMachine(order: seq<Id>, transactions: map<Id, Active>, m: M.Machine, staged: Work, e: M.Entry,
      w: P.Write, now: int, staged': Work)
    requires (forall i :: i in order <==> i in transactions)
    requires m.table == TableOf(order, transactions, staged) && M.Sound(m) && e in m.table
    requires staged' == staged[e.conn := S.StagedOn(staged, e.conn) + [w]]
    ensures e.id in transactions && e.conn == transactions[e.id].connection && e.conn !in m.pool.idle
    ensures M.Touch(m.table, e.id, w, now) ==
            TableOf(order, transactions[e.id := transactions[e.id].(lastUsed := now)], staged')
    ensures M.Sound(m.(table := M.Touch(m.table, e.id, w, now)))
  {
    Lookup(order, transactions, m, staged, e);
    PrivateConn(m, e);
    M.TouchSound(m, e.id, w, now);
    hide M.Sound, M.Touch, TableOf;
    forall i | i in order && i != e.id
      ensures S.StagedOn(staged', transactions[i].connection) == S.StagedOn(staged, transactions[i].connection)
    {
      OtherConn(order, transactions, m, staged, e, i);
    }
    TableTouch(order, transactions, staged, e.id, now, w, staged');
  }

  lemma Listed(order: seq<Id>, transactions: map<Id, Active>, staged: Work, id: Id)
    requires forall i | i in order :: i in transactions
    ensures M.Has(TableOf(order, transactions, staged), id) <==> id in order
  {
    TableEntries(order, transactions, staged);
    var t := TableOf(order, transactions, staged);
    if id in order {
      var k :| 0 <= k < |order| && order[k] == id;
      assert t[k].id == id;
    }
    if M.Has(t, id) {
      var e :| e in t && e.id == id;
      var k :| 0 <= k < |t| && t[k] == e;
      assert order[k] == id;
    }
  }

  /** A new transaction at the end of the dict, on a connection that nobody has. */
  lemma AddedMachine(order: seq<Id>, before: map<Id, Active>, m: M.Machine, staged: Work, id: Id, x: Active,
                     staged': Work, pool: M.Pool)
    requires (forall i | i in order :: i in before) && m.table == TableOf(order, before, staged) && M.Sound(m)
    requires id !in order && NoDup(order) && forall i :: i in order <==> i in before
    requires forall c: Conn | c != x.connection :: S.StagedOn(staged', c) == S.StagedOn(staged, c)
    requires S.StagedOn(staged', x.connection) == []
    requires x.connection !in M.Conns(m.table) && M.SoundPool(pool, M.Conns(m.table) + multiset{x.connection})
    ensures var n := m.(pool := pool, table := m.table + [M.Entry(id, x.connection, x.lastUsed, [])]);
            && n.table == TableOf(order + [id], before[id := x], staged')
            && M.Sound(n) && M.Has(n.table, id)
    ensures NoDup(order + [id]) && forall i :: i in order + [id] <==> i in before[id := x]
  {
    hide M.Conns, M.SoundPool, TableOf;
    Listed(order, before, staged, id);
    NotOn(order, before, staged, x.connection);
    TableAdd(order, before, staged, id, x, staged');
    var e := M.Entry(id, x.connection, x.lastUsed, []);
    M.AddSound(m, pool, e);
    var t := m.table + [e];
    assert t[|t| - 1].id == id;
  }

  /** A connection that the table does not count belongs to no transaction. */
  lemma NotOn(order: seq<Id>, transactions: map<Id, Active>, staged: Work, c: Conn)
    requires (forall i | i in order :: i in transactions) && c !in M.Conns(TableOf(order, transactions, staged))
    ensures forall i | i in order :: transactions[i].connection != c
  {
    var t := TableOf(order, transactions, staged);
    TableEntries(order, transactions, staged);
    M.ConnsOf(t);
    forall i | i in order
      ensures transactions[i].connection != c
    {
      var k :| 0 <= k < |order| && order[k] == i;
      assert t[k] in t;
    }
  }

  /** A checkout does not touch the transactions that are listed. */
  lemma TableAfterCheckout(order: seq<Id>, transactions: map<Id, Active>, staged: Work, staged': Work,
      got: Result<Conn, M.PoolError>)
    requires forall i | i in order :: i in transactions
    requires WorkAfter(staged, staged', got)
    requires got.Ok? ==> got.value !in M.Conns(TableOf(order, transactions, staged))
    ensures TableOf(order, transactions, staged') == TableOf(order, transactions, staged)
    ensures got.Ok? ==> S.StagedOn(staged', got.value) == []
  {
    if got.Ok? { NotOn(order, transactions, staged, got.value); }
    TableSame(order, transactions, staged, transactions, staged');
  }

  class ExecutionInvoker {
    const pool: ConnectionPool
    const ttl: int
    var order: seq<Id>
    var transactions: map<Id, Active>

    ghost predicate Linked()
      reads this
    {
      NoDup(order) && forall id :: id in order <==> id in transactions
    }

    ghost function Abs(): M.Machine
      requires Linked()
      reads this, pool, pool.sap
    {
      M.Machine(pool.View(), TableOf(order, transactions, pool.sap.staged), pool.sap.durable)
    }

    ghost predicate Valid()
      reads this, pool, pool.sap
    {
      Linked() && M.Sound(Abs()) && pool.Clean()
    }

    constructor (pool: ConnectionPool, ttl: int)
      requires pool.Clean() && M.SoundPool(pool.View(), multiset{})
      ensures this.pool == pool && this.ttl == ttl && Valid() && Abs() == M.Machine(pool.View(), [], pool.sap.durable)
    {
      this.pool, this.ttl := pool, ttl;
      order, transactions := [], map[];
    }

    lemma InTable(id: Id) returns (e: M.Entry)
      requires Valid() && id in transactions
      ensures e == EntryOf(id, transactions[id], pool.sap.staged) && e in Abs().table && M.Has(Abs().table, id)
      ensures M.Find(Abs().table, id) == e
    {
      TableEntries(order, transactions, pool.sap.staged);
      var k :| 0 <= k < |order| && order[k] == id;
      e := EntryOf(id, transactions[id], pool.sap.staged);
      assert Abs().table[k] == e;
      M.UniqueId(Abs().table, e, M.Find(Abs().table, id));
    }

    lemma HasIsIn(id: Id)
      requires Linked()
      ensures M.Has(Abs().table, id) <==> id in transactions
    {
      Listed(order, transactions, pool.sap.staged, id);
    }

    /** The rollback RFC of a transaction that leaves the table, and its release. */
    method EndTransaction(id: Id, ghost e: M.Entry, ok: bool, left: seq<P.Write>)
      requires Valid() && id in transactions && e in Abs().table && e.id == id
      modifies this, pool, pool.sap
      ensures Valid()
      ensures Abs() == M.End(old(Abs()), e, ok)
      ensures transactions == old(transactions) - {id}
      ensures forall i | i in transactions ::
                pool.sap.On(transactions[i].connection) == old(pool.sap.On(transactions[i].connection))
    {
      hide M.Sound, M.Without, TableOf, Drop;
      ghost var staged := pool.sap.staged[e.conn := []];
      EndedMachine(order, transactions, Abs(), pool.sap.staged, e, staged, ok);
      var x := transactions[id];
      order, transactions := Drop(order, id), transactions - {id};
      pool.sap.Rollback(x.connection, ok, left);
      pool.Release(x.connection, ok);
      assert pool.sap.staged == staged;
    }

    /** The candidates from `i` on are still in the dict as they were listed. */
    ghost predicate Ahead(candidates: seq<Id>, i: nat, listed: seq<M.Entry>)
      requires |candidates| == |listed|
      reads this, pool.sap
    {
      forall j | i <= j < |candidates| ::
        candidates[j] in transactions &&
          EntryOf(candidates[j], transactions[candidates[j]], pool.sap.staged) == listed[j]
    }

    /** One candidate of a sweep. */
    method ExpireOne(candidates: seq<Id>, i: nat, ghost listed: seq<M.Entry>, cutoff: int, ok: Id -> bool,
        left: seq<P.Write>)
      requires Valid() && NoDup(candidates) && |listed| == |candidates| && i < |candidates| &&
               Ahead(candidates, i, listed)
      modifies this, pool, pool.sap
      ensures Valid() && Ahead(candidates, i + 1, listed)
      ensures Abs() == if listed[i].lastUsed >= cutoff then old(Abs())
                       else M.End(old(Abs()), listed[i], ok(listed[i].id))
    {
      hide M.Sound, M.Without, TableOf, Drop, M.End;
      var id := candidates[i];
      if transactions[id].lastUsed < cutoff {
        ghost var e := InTable(id);
        EndTransaction(id, e, ok(id), left);
      }
    }

    method ExpireTransactions(now: int, ok: Id -> bool, left: seq<P.Write>)
      requires Valid()
      modifies this, pool, pool.sap
      ensures Valid() && Abs() == M.Expire(old(Abs()), now - ttl, ok)
    {
      hide M.Sound, M.Without, TableOf, Drop, M.End, Ahead;
      var cutoff := now - ttl;
      var candidates := order;
      ghost var m0 := Abs();
      AllAhead();
      for i := 0 to |candidates|
        invariant Valid() && |m0.table| == |candidates| && Ahead(candidates, i, m0.table)
        invariant Abs() == M.EndAll(m0, M.Expired(m0.table[..i], cutoff), ok)
      {
        assert m0.table[..i + 1] == m0.table[..i] + [m0.table[i]];
        ExpiredSnoc(m0.table[..i], m0.table[i], cutoff);
        EndAllSnoc(m0, M.Expired(m0.table[..i], cutoff), m0.table[i], ok);
        ExpireOne(candidates, i, m0.table, cutoff, ok, left);
        if m0.table[i].lastUsed >= cutoff {
          assert M.Expired(m0.table[..i], cutoff) + [] == M.Expired(m0.table[..i], cutoff);
        }
      }
      assert m0.table[..|candidates|] == m0.table;
    }

    lemma AllAhead()
      requires Linked()
      ensures |Abs().table| == |order| && Ahead(order, 0, Abs().table)
    {
      TableEntries(order, transactions, pool.sap.staged);
    }

    // ---- call_transactional ----

    /** `_discard_transaction`; `m` is the machine before the call that failed on `e`. */
    method Discard(id: Id, ghost m: M.Machine, ghost e: M.Entry, ghost staged: Work)
      requires Linked() && M.Sound(m) && e in m.table && e.id == id && id in transactions && pool.Clean()
      requires m == M.Machine(pool.View(), TableOf(order, transactions, staged), pool.sap.durable)
      requires forall c: Conn | c != e.conn :: pool.sap.On(c) == S.StagedOn(staged, c)
      modifies this, pool, pool.sap
      ensures Valid() && Abs() == M.End(m, e, false)
    {
      hide M.Sound, M.Without, TableOf, Drop;
      EndedMachine(order, transactions, m, staged, e, pool.sap.staged[e.conn := []], false);
      var x := transactions[id];
      order, transactions := Drop(order, id), transactions - {id};
      pool.Release(x.connection, false);
    }

    /** The block of `call_transactional` under the lock of the transaction. */
    method RunWrite(id: Id, data: nat, env: M.Env) returns (r: Result<Id, M.CallError>)
      requires Valid() && M.Has(Abs().table, id)
      modifies this, pool, pool.sap
      ensures Valid() && (Abs(), r) == M.RunWrite(old(Abs()), id, data, env)
    {
      hide M.Sound, M.Without, M.Touch, M.Find, M.Has, TableOf, Drop, M.End;
      HasIsIn(id);
      ghost var e := InTable(id);
      var x := transactions[id];
      var w := P.Write(id, data);
      ghost var m, staged := Abs(), pool.sap.staged;
      WrittenMachine(order, transactions, m, staged, e, w, env.finished,
        staged[x.connection := pool.sap.On(x.connection) + [w]]);
      pool.sap.Execute(x.connection, w, env.callOk, env.left);
      assert pool.Clean();
      if env.callOk && env.fits {
        transactions := transactions[id := x.(lastUsed := env.finished)];
        r := Ok(id);
      } else {
        Discard(id, m, e, staged);
        r := Err(if env.callOk then M.ResultTooLarge else M.CallFailed);
      }
    }

    /** `self._pool.checkout()`: the table does not notice. */
    method Checkout(alive: Conn -> bool, dial: nat -> Dial<Conn, nat>) returns (got: Result<Conn, M.PoolError>)
      requires Valid() && M.NewConn(pool.View(), dial)
      modifies pool, pool.sap
      ensures var (p, g) := M.Checkout(old(Abs()).pool, alive, dial);
              Abs() == old(Abs()).(pool := p) && got == g
      ensures pool.Clean() && (got.Err? ==> Valid())
      ensures got.Ok? ==> got.value !in M.Conns(Abs().table) && pool.sap.On(got.value) == [] &&
                          M.SoundPool(pool.View(), M.Conns(Abs().table) + multiset{got.value})
    {
      ghost var m, staged := Abs(), pool.sap.staged;
      M.CheckoutSound(m.pool, M.Conns(m.table), alive, dial);
      hide M.Conns, M.Checkout, TableOf, M.SoundPool, M.NewConn, WorkAfter;
      got := pool.Checkout(alive, dial);
      TableAfterCheckout(order, transactions, staged, pool.sap.staged, got);
    }

    /** `_get_or_create_transaction` without an ID, and the write. */
    method FirstWrite(data: nat, env: M.Env) returns (r: Result<Id, M.CallError>)
      requires Valid() && M.NewNames(Abs(), env)
      modifies this, pool, pool.sap
      ensures Valid() && (Abs(), r) == M.FirstWrite(old(Abs()), data, env)
    {
      hide M.Conns, M.RunWrite, M.Checkout, TableOf, M.SoundPool, M.Has, M.NewConn;
      HasIsIn(env.freshId);
      ghost var m := Abs();
      var got := Checkout(env.alive, env.dial);
      match got
      case Err(why) =>
        r := Err(M.NoConnection(why));
      case Ok(c) =>
        var x := Active(c, env.made);
        AddedMachine(order, transactions, m, pool.sap.staged, env.freshId, x, pool.sap.staged, pool.View());
        order, transactions := order + [env.freshId], transactions[env.freshId := x];
        r := RunWrite(env.freshId, data, env);
    }

    method CallTransactional(target: Option<Id>, data: nat, env: M.Env) returns (r: Result<Id, M.CallError>)
      requires Valid() && M.NewNames(Abs(), env)
      modifies this, pool, pool.sap
      ensures Valid() && (Abs(), r) == M.CallTransactional(old(Abs()), ttl, target, data, env)
    {
      hide M.Sound, M.Expire, M.RunWrite, M.FirstWrite, M.NewNames, M.Has, TableOf, CleanList, Linked;
      M.SweptIsSound(Abs(), env.start - ttl, env);
      ExpireTransactions(env.start, env.rollbackOk, env.left);
      if !env.authorised {
        return Err(M.Denied);
      }
      if !env.valid {
        return Err(M.BadRequest);
      }
      match target
      case Some(id) =>
        HasIsIn(id);
        if id !in transactions {
          return Err(M.NotFound(id));
        }
        r := RunWrite(id, data, env);
      case None =>
        r := FirstWrite(data, env);
    }

    // ---- commit and rollback ----

    /** The block of `_finish_transaction` under the lock of the transaction. */
    method EndCall(id: Id, ghost e: M.Entry, commit: bool, env: M.Env) returns (r: Result<Id, M.CallError>)
      requires Valid() && id in transactions && e in Abs().table && e.id == id
      modifies this, pool, pool.sap
      ensures Valid() && (Abs(), r) == M.EndCall(old(Abs()), e, commit, env)
    {
      hide M.Sound, M.Without, TableOf, Drop;
      ghost var staged := pool.sap.staged[e.conn := []];
      EndedMachine(order, transactions, Abs(), pool.sap.staged, e, staged, env.callOk);
      M.EndCallSound(Abs(), e, commit, env);
      var x := transactions[id];
      order, transactions := Drop(order, id), transactions - {id};
      if commit {
        pool.sap.Commit(x.connection, env.callOk, env.applied, env.left);
      } else {
        pool.sap.Rollback(x.connection, env.callOk, env.left);
      }
      pool.Release(x.connection, env.callOk);
      assert pool.sap.staged == staged;
      r := if env.callOk then Ok(id) else Err(M.CallFailed);
    }

    /** `commit` and `rollback`. */
    method FinishTransaction(id: Id, commit: bool, env: M.Env) returns (r: Result<Id, M.CallError>)
      requires Valid()
      modifies this, pool, pool.sap
      ensures Valid() && (Abs(), r) == M.Finish(old(Abs()), ttl, id, commit, env)
    {
      hide M.Sound, M.Expire, M.EndCall, TableOf;
      if !env.authorised {
        return Err(M.Denied);
      }
      ExpireTransactions(env.start, env.rollbackOk, env.left);
      HasIsIn(id);
      if id !in transactions {
        return Err(M.NotFound(id));
      }
      ghost var e := InTable(id);
      r := EndCall(id, e, commit, env);
    }

    // ---- reads ----

    /** The end of `with self._pool.acquire()`. */
    method Return(c: Conn, reusable: bool)
      requires Linked() && pool.Clean() && M.Distinct(Abs().table) && pool.sap.On(c) == [] && c !in M.Conns(Abs().table)
      requires M.SoundPool(pool.View(), M.Conns(Abs().table) + multiset{c})
      modifies pool, pool.sap
      ensures Valid() && Abs() == old(Abs()).(pool := M.GiveBack(old(Abs()).pool, c, reusable))
    {
      hide M.Conns, TableOf, M.SoundPool, M.Distinct, CleanList, Linked;
      M.ReturnSound(pool.View(), M.Conns(Abs().table), c, reusable);
      ReturnedTable(c);
      pool.Release(c, reusable);
    }

    /** A connection without work can be given back or closed without the table noticing. */
    lemma ReturnedTable(c: Conn)
      requires Linked() && pool.sap.On(c) == [] && c !in M.Conns(Abs().table)
      ensures TableOf(order, transactions, pool.sap.staged[c := []]) == Abs().table
    {
      NotOn(order, transactions, pool.sap.staged, c);
      TableSame(order, transactions, pool.sap.staged, transactions, pool.sap.staged[c := []]);
    }

    /** `call`, and PooledCaller.call: one call on a borrowed connection. */
    method Call(env: M.Env) returns (r: Result<(), M.CallError>)
      requires Valid() && M.NewConn(pool.View(), env.dial)
      modifies pool, pool.sap
      ensures Valid() && (Abs(), r) == M.Read(old(Abs()), env)
    {
      if !env.authorised {
        return Err(M.Denied);
      }
      if !env.valid {
        return Err(M.BadRequest);
      }
      hide M.Conns, M.Checkout, TableOf, M.SoundPool, M.NewConn;
      var got := Checkout(env.alive, env.dial);
      match got
      case Err(why) =>
        r := Err(M.NoConnection(why));
      case Ok(c) =>
        Return(c, env.callOk);
        r := if !env.callOk then Err(M.CallFailed) else if env.fits then Ok(()) else Err(M.ResultTooLarge);
    }

    // ---- shutdown ----

    /** The rollback of a transaction that is already out of the table, and its release. */
    method EndPending(x: Active, ok: bool, left: seq<P.Write>)
      requires pool.Clean()
      modifies pool, pool.sap
      ensures pool.View() == M.GiveBack(old(pool.View()), x.connection, ok)
      ensures pool.Clean() && pool.sap.durable == old(pool.sap.durable)
    {
      pool.sap.Rollback(x.connection, ok, left);
      pool.Release(x.connection, ok);
      assert pool.sap.staged == old(pool.sap.staged)[x.connection := []];
    }

    /** The loop of `close` over the transactions that were in the table. */
    method RollbackAll(pending: seq<Id>, listed: map<Id, Active>, ghost m: M.Machine, ok: Id -> bool,
        left: seq<P.Write>)
      requires pool.Clean() && pool.View() == m.pool && |m.table| == |pending|
      requires forall id | id in pending :: id in listed
      requires forall i | 0 <= i < |pending| ::
                 m.table[i].id == pending[i] && m.table[i].conn == listed[pending[i]].connection
      modifies pool, pool.sap
      ensures pool.Clean() && pool.sap.durable == old(pool.sap.durable)
      ensures pool.View() == M.EndAll(m, m.table, ok).pool
    {
      hide M.Without, M.End;
      for i := 0 to |pending|
        invariant pool.Clean() && pool.sap.durable == old(pool.sap.durable)
        invariant pool.View() == M.EndAll(m, m.table[..i], ok).pool
      {
        var x := listed[pending[i]];
        assert m.table[..i + 1] == m.table[..i] + [m.table[i]];
        EndAllSnoc(m, m.table[..i], m.table[i], ok);
        Ends(M.EndAll(m, m.table[..i], ok), m.table[i], ok(pending[i]));
        EndPending(x, ok(pending[i]), left);
      }
      assert m.table[..|pending|] == m.table;
    }

    /** `close`: the table is emptied first, then every transaction is rolled back. */
    method Close(ok: Id -> bool, left: seq<P.Write>)
      requires Valid()
      modifies this, pool, pool.sap
      ensures Valid() && Abs() == M.Shutdown(old(Abs()), ok)
    {
      hide M.Sound, TableOf, M.EndAll, CleanList;
      ghost var m := Abs();
      ShutdownEmpties(ok);
      var pending, listed := order, transactions;
      order, transactions := [], map[];
      RollbackAll(pending, listed, m, ok, left);
      NoTable(pool.sap.staged);
    }

    lemma ShutdownEmpties(ok: Id -> bool)
      requires Valid()
      ensures var m := Abs();
              && |m.table| == |order|
              && (forall i | 0 <= i < |order| ::
                    order[i] in transactions && m.table[i].id == order[i] &&
                    m.table[i].conn == transactions[order[i]].connection)
              && var r := M.Shutdown(m, ok); r.table == [] && r.durable == m.durable && M.Sound(r)
    {
      hide M.Without;
      var m := Abs();
      TableEntries(order, transactions, pool.sap.staged);
      M.EndAllEffect(m, m.table, ok);
      M.WithoutAll(m.table, M.Ids(m.table));
    }

    lemma NoTable(staged: Work)
      ensures TableOf([], map[], staged) == []
    {}

    lemma Ends(m: M.Machine, e: M.Entry, ok: bool)
      ensures M.End(m, e, ok).pool == M.GiveBack(m.pool, e.conn, ok)
    {}
  }
}
