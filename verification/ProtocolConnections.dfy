/** Effects on connections that a thread holds itself: popping from the idle list, opening,
    closing, pushing back, draining, and a failed call that leaves unknown staged work. */
module ProtocolConnections {
  import opened Common
  import opened ProtocolState
  import opened ProtocolSteps
  import opened ProtocolInvariant
  import opened ProtocolEffects

  /** The thread keeps its place in the life of transactions and the lock it holds. */
  predicate SameCourse(m: Role, n: Role) {
    SameDuty(m, n) && n.holds == m.holds && !m.job.Discarding? && !n.job.Discarding?
  }

  /** Invariants about nothing but roles, the table and transaction locks. */
  lemma RoleCourse(s: State, r: Roles, t: Tid, n: Role)
    requires InvOver(s, r) && Fits(s, r, t, n) && SameCourse(r[t], n)
    ensures InvIds(s.table, s.txs.Keys, r[t := n])
    ensures InvTxLocks(s.txLock, r[t := n])
    ensures InvShortLocks(s.tableLock, s.poolLock, r[t := n])
    ensures InvStages(s.table, s.txs, r[t := n])
    ensures InvWork(s.txs, s.txLock, s.staged, r[t := n])
  {
    RoleIds(s.table, s.txs.Keys, r, t, n);
    RoleTxLocks(s.txLock, r, t, n);
    RoleShortLocks(s.tableLock, s.poolLock, r, t, n);
    RoleStages(s.table, s.txs, r, t, n);
    RoleWork(s.txs, s.txLock, s.staged, r, t, n);
  }

  /** Moving a connection that belongs to no transaction leaves their places alone. */
  lemma OtherPlace(txs: Txs, place: map<Conn, Place>, c: Conn, p: Place)
    requires InvTxPlaces(txs, place) && !p.AtTx? && (c in place ==> !place[c].AtTx?)
    ensures InvTxPlaces(txs, place[c := p])
  {}

  // ---- the idle list ----

  lemma PopPlaces(idle: seq<Conn>, place: map<Conn, Place>, r: Roles, t: Tid, n: Role)
    requires InvPlaces(idle, place, r) && t in r && idle != []
    requires r[t].borrowed == [] && n.borrowed == [idle[|idle| - 1]]
    ensures InvPlaces(idle[..|idle| - 1], place[idle[|idle| - 1] := AtThread(t)], r[t := n])
  {
    var c := idle[|idle| - 1];
    var rest := idle[..|idle| - 1];
    assert idle == rest + [c];
    forall x
      ensures x in rest <==> x in idle && x != c
    {}
    assert c in n.borrowed;
    assert c in idle && place[c] == AtIdle;
  }

  lemma PopIdle(s: State, r: Roles, t: Tid, n: Role)
    requires InvOver(s, r) && Fits(s, r, t, n) && s.idle != []
    requires r[t].borrowed == [] && n.borrowed == [s.idle[|s.idle| - 1]]
    requires r[t].permit && n.permit && !r[t].slot && n.slot
    requires SameCourse(r[t], n) && r[t].job == n.job == Nothing
    ensures InvOver(s.(idle := s.idle[..|s.idle| - 1],
                       place := s.place[s.idle[|s.idle| - 1] := AtThread(t)]), r[t := n])
  {
    var c := s.idle[|s.idle| - 1];
    RoleCourse(s, r, t, n);
    RoleJobs(s.txs, s.staged, r, t, n);
    PopPlaces(s.idle, s.place, r, t, n);
    OtherPlace(s.txs, s.place, c, AtThread(t));
    RoleCounts(r, t, n);
    assert c in s.idle;
    RoleClean(s.idle, s.staged, r, t, n);
  }

  lemma PushPlaces(idle: seq<Conn>, place: map<Conn, Place>, r: Roles, t: Tid, n: Role, c: Conn)
    requires InvPlaces(idle, place, r) && t in r && r[t].borrowed == [c] && n.borrowed == []
    ensures InvPlaces(idle + [c], place[c := AtIdle], r[t := n])
  {
    assert c in r[t].borrowed;
    assert c !in idle;
  }

  lemma PushLoan(s: State, r: Roles, t: Tid, n: Role, c: Conn)
    requires InvOver(s, r) && Fits(s, r, t, n)
    requires r[t].borrowed == [c] && n.borrowed == []
    requires n.permit == r[t].permit && r[t].slot && !n.slot
    requires SameCourse(r[t], n) && r[t].job == Pushing(c) && n.job == Nothing
    ensures InvOver(s.(idle := s.idle + [c], place := s.place[c := AtIdle]), r[t := n])
  {
    RoleCourse(s, r, t, n);
    RoleJobs(s.txs, s.staged, r, t, n);
    PushPlaces(s.idle, s.place, r, t, n, c);
    assert s.place[c] == AtThread(t) by { assert c in r[t].borrowed; }
    OtherPlace(s.txs, s.place, c, AtIdle);
    RoleCounts(r, t, n);
    PushClean(s.txs, s.idle, s.staged, r, t, n, c);
  }

  lemma PushClean(txs: Txs, idle: seq<Conn>, staged: Work, r: Roles, t: Tid, n: Role, c: Conn)
    requires InvClean(idle, staged, r) && InvJobs(txs, staged, r)
    requires t in r && r[t].job == Pushing(c) && n.borrowed == []
    ensures InvClean(idle + [c], staged, r[t := n])
  {
    RoleClean(idle, staged, r, t, n);
    assert JobOk(txs, staged, t, r[t].job);
  }

  // ---- opening and closing ----

  /** Emptying or filling the staged work of a connection that no transaction owns. */
  lemma OtherWork(s: State, r: Roles, c: Conn, work: seq<Write>)
    requires InvOver(s, r) && (c in s.place ==> !s.place[c].AtTx?)
    requires forall u | u in r :: r[u].job != Pushing(c) || work == []
    ensures InvJobs(s.txs, s.staged[c := work], r)
    ensures InvWork(s.txs, s.txLock, s.staged[c := work], r)
  {
    forall u | u in r
      ensures JobOk(s.txs, s.staged[c := work], u, r[u].job)
    {
      OtherJob(s, r, u, c, work);
    }
  }

  lemma OtherJob(s: State, r: Roles, u: Tid, c: Conn, work: seq<Write>)
    requires InvOver(s, r) && u in r && (c in s.place ==> !s.place[c].AtTx?)
    requires r[u].job != Pushing(c) || work == []
    ensures JobOk(s.txs, s.staged[c := work], u, r[u].job)
  {
    assert JobOk(s.txs, s.staged, u, r[u].job) && WellFormed(r[u]);
    if r[u].job.PushingTx? {
      assert r[u].job.id in r[u].owes;
    }
  }

  lemma OpenPlaces(idle: seq<Conn>, place: map<Conn, Place>, r: Roles, t: Tid, n: Role, c: Conn)
    requires InvPlaces(idle, place, r) && t in r && r[t].borrowed == [] && n.borrowed == [c] && c !in place
    ensures InvPlaces(idle, place[c := AtThread(t)], r[t := n])
  {}

  lemma OpenConn(s: State, r: Roles, t: Tid, n: Role, c: Conn)
    requires InvOver(s, r) && Fits(s, r, t, n) && c !in s.place
    requires r[t].borrowed == [] && n.borrowed == [c]
    requires n.permit == r[t].permit && n.slot == r[t].slot
    requires SameCourse(r[t], n) && r[t].job == n.job == Nothing
    ensures InvOver(s.(place := s.place[c := AtThread(t)], staged := s.staged[c := []]), r[t := n])
  {
    OtherWork(s, r, c, []);
    var staged := s.staged[c := []];
    RoleCourse(s, r, t, n);
    RoleWork(s.txs, s.txLock, staged, r, t, n);
    RoleJobs(s.txs, staged, r, t, n);
    OpenPlaces(s.idle, s.place, r, t, n, c);
    OtherPlace(s.txs, s.place, c, AtThread(t));
    RoleCounts(r, t, n);
    EmptiedClean(s.idle, s.staged, r, c);
    RoleClean(s.idle, staged, r, t, n);
  }

  lemma EmptiedClean(idle: seq<Conn>, staged: Work, r: Roles, c: Conn)
    requires InvClean(idle, staged, r)
    ensures InvClean(idle, staged[c := []], r)
  {
    forall u, x | u in r && !r[u].dirty && x in r[u].borrowed
      ensures StagedOn(staged[c := []], x) == []
    {
      assert StagedOn(staged, x) == [];
    }
  }

  lemma ClosePlaces(idle: seq<Conn>, place: map<Conn, Place>, r: Roles, t: Tid, n: Role, c: Conn)
    requires InvPlaces(idle, place, r) && t in r && r[t].borrowed == [c] + n.borrowed
    ensures InvPlaces(idle, place[c := Closed], r[t := n])
  {
    assert r[t].borrowed[0] == c;
    assert c in r[t].borrowed;
    forall x | x in n.borrowed
      ensures x in r[t].borrowed && x != c
    {
      var i :| 0 <= i < |n.borrowed| && n.borrowed[i] == x;
      assert r[t].borrowed[i + 1] == x;
    }
    forall i, j | 0 <= i < j < |n.borrowed|
      ensures n.borrowed[i] != n.borrowed[j]
    {
      assert r[t].borrowed[i + 1] == n.borrowed[i] && r[t].borrowed[j + 1] == n.borrowed[j];
    }
    forall x | x in place && place[x] == AtThread(t) && x != c
      ensures x in n.borrowed
    {
      assert x in r[t].borrowed;
    }
  }

  /** `_close_quietly` on the first connection the thread holds. */
  lemma CloseBorrowed(s: State, r: Roles, t: Tid, n: Role, c: Conn)
    requires InvOver(s, r) && Fits(s, r, t, n) && r[t].borrowed == [c] + n.borrowed
    requires n.permit == r[t].permit && One(n.slot) <= One(r[t].slot)
    requires SameCourse(r[t], n) && r[t].job == n.job == Nothing
    requires n.dirty || n.borrowed == [] || !r[t].dirty
    ensures InvOver(s.(place := s.place[c := Closed], staged := s.staged[c := []]), r[t := n])
  {
    assert c in r[t].borrowed;
    assert s.place[c] == AtThread(t);
    OtherWork(s, r, c, []);
    var staged := s.staged[c := []];
    RoleCourse(s, r, t, n);
    RoleWork(s.txs, s.txLock, staged, r, t, n);
    RoleJobs(s.txs, staged, r, t, n);
    ClosePlaces(s.idle, s.place, r, t, n, c);
    OtherPlace(s.txs, s.place, c, Closed);
    RoleCounts(r, t, n);
    EmptiedClean(s.idle, s.staged, r, c);
    forall x | x in n.borrowed ensures x in r[t].borrowed {}
    RoleClean(s.idle, staged, r, t, n);
  }

  /** A read raised: its connection holds unknown work and is about to be closed. */
  lemma DirtyLoan(s: State, r: Roles, t: Tid, n: Role, c: Conn, work: seq<Write>)
    requires InvOver(s, r) && Fits(s, r, t, n)
    requires r[t].borrowed == n.borrowed == [c] && n.dirty
    requires n.permit == r[t].permit && n.slot == r[t].slot
    requires SameCourse(r[t], n) && r[t].job == n.job == Nothing
    ensures InvOver(s.(staged := s.staged[c := work]), r[t := n])
  {
    assert c in r[t].borrowed;
    assert s.place[c] == AtThread(t);
    forall u | u in r
      ensures r[u].job != Pushing(c)
    {
      assert WellFormed(r[u]);
      assert c in r[u].borrowed ==> u == t;
    }
    OtherWork(s, r, c, work);
    var staged := s.staged[c := work];
    RoleCourse(s, r, t, n);
    RoleWork(s.txs, s.txLock, staged, r, t, n);
    RoleJobs(s.txs, staged, r, t, n);
    RolePlaces(s.idle, s.place, r, t, n);
    RoleCounts(r, t, n);
    DirtyClean(s.idle, s.place, s.staged, r, t, n, c, work);
  }

  lemma DirtyClean(idle: seq<Conn>, place: map<Conn, Place>, staged: Work, r: Roles, t: Tid, n: Role,
                   c: Conn, work: seq<Write>)
    requires InvClean(idle, staged, r) && InvPlaces(idle, place, r) && t in r
    requires r[t].borrowed == n.borrowed == [c] && n.dirty
    ensures InvClean(idle, staged[c := work], r[t := n])
  {
    assert c in r[t].borrowed;
    assert place[c] == AtThread(t);
    forall x | x in idle
      ensures StagedOn(staged[c := work], x) == []
    {
      assert place[x] == AtIdle;
    }
    forall u, x | u in r && u != t && !r[u].dirty && x in r[u].borrowed
      ensures StagedOn(staged[c := work], x) == []
    {
      assert place[x] == AtThread(u);
      assert StagedOn(staged, x) == [];
    }
  }

  // ---- close_all ----

  lemma Drain(s: State, r: Roles, t: Tid, n: Role)
    requires InvOver(s, r) && Fits(s, r, t, n)
    requires r[t].borrowed == [] && n.borrowed == s.idle
    requires n.permit == r[t].permit && !n.slot && !r[t].slot
    requires SameCourse(r[t], n) && r[t].job == n.job == Nothing
    ensures InvOver(s.(idle := [], place := Drained(s.idle, s.place, t)), r[t := n])
  {
    RoleCourse(s, r, t, n);
    RoleJobs(s.txs, s.staged, r, t, n);
    DrainPlaces(s.idle, s.place, r, t, n);
    DrainTxPlaces(s.txs, s.idle, s.place, r, t);
    RoleCounts(r, t, n);
    RoleClean(s.idle, s.staged, r, t, n);
  }

  lemma DrainPlaces(idle: seq<Conn>, place: map<Conn, Place>, r: Roles, t: Tid, n: Role)
    requires InvPlaces(idle, place, r) && t in r && r[t].borrowed == [] && n.borrowed == idle
    ensures InvPlaces([], Drained(idle, place, t), r[t := n])
  {}

  lemma DrainTxPlaces(txs: Txs, idle: seq<Conn>, place: map<Conn, Place>, r: Roles, t: Tid)
    requires InvPlaces(idle, place, r) && InvTxPlaces(txs, place)
    ensures InvTxPlaces(txs, Drained(idle, place, t))
  {}
}
