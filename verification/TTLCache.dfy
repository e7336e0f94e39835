/** The TTL cache, and what a lookup can return after any interleaving of the operations of
    any number of threads: each operation runs under the cache's lock. */
module TTLCaches {
  import opened Common

  datatype Entry<T> = Entry(expiresAt: int, value: T)

  type Store<T> = map<string, Entry<T>>

  /** One locked operation; the time is the clock reading inside it. */
  datatype Op<T> = Get(key: string, at: int) | Set(key: string, value: T, at: int) | Clear(at: int)

  /** What `get` returns. */
  function Peek<T>(store: Store<T>, key: string, now: int): Option<T> {
    if key in store && store[key].expiresAt >= now then Some(store[key].value) else None
  }

  function After<T>(ttl: int, store: Store<T>, op: Op<T>): Store<T> {
    match op
    case Get(key, now) => if key in store && store[key].expiresAt < now then store - {key} else store
    case Set(key, value, now) => store[key := Entry(now + ttl, value)]
    case Clear(_) => map[]
  }

  class TTLCache<T> {
    const ttl: int
    var store: Store<T>

    constructor (ttl: int)
      ensures this.ttl == ttl && store == map[]
    {
      this.ttl, store := ttl, map[];
    }

    method Get(key: string, now: int) returns (r: Option<T>)
      modifies this
      ensures r == Peek(old(store), key, now)
      ensures store == After(ttl, old(store), Op.Get(key, now))
    {
      if key !in store {
        return None;
      }
      var entry := store[key];
      if entry.expiresAt < now {
        store := store - {key};
        return None;
      }
      return Some(entry.value);
    }

    method Set(key: string, value: T, now: int)
      modifies this
      ensures store == After(ttl, old(store), Op.Set(key, value, now))
    {
      store := store[key := Entry(now + ttl, value)];
    }

    method Clear(now: int)
      modifies this
      ensures store == After(ttl, old(store), Op.Clear(now))
    {
      store := map[];
    }
  }

  // ---- whole histories ----

  function Run<T>(ttl: int, ops: seq<Op<T>>): Store<T> {
    if ops == [] then map[] else After(ttl, Run(ttl, ops[..|ops| - 1]), ops[|ops| - 1])
  }

  /** The clock never goes backwards. */
  ghost predicate InOrder<T>(ops: seq<Op<T>>, now: int) {
    && (forall i, j | 0 <= i < j < |ops| :: ops[i].at <= ops[j].at)
    && (forall i | 0 <= i < |ops| :: ops[i].at <= now)
  }

  /** The last `set` of the key that no `clear` came after. */
  function LastSet<T>(ops: seq<Op<T>>, key: string): Option<nat> {
    if ops == [] then None
    else
      var op := ops[|ops| - 1];
      if op.Clear? then None
      else if op.Set? && op.key == key then Some(|ops| - 1)
      else LastSet(ops[..|ops| - 1], key)
  }

  lemma {:induction false} LastSetIsSet<T>(ops: seq<Op<T>>, key: string)
    ensures match LastSet(ops, key)
            case Some(i) =>
              && i < |ops| && ops[i].Set? && ops[i].key == key
              && forall j | i < j < |ops| :: !ops[j].Clear? && !(ops[j].Set? && ops[j].key == key)
            case None => forall i | 0 <= i < |ops| && ops[i].Set? && ops[i].key == key ::
                exists j :: i < j < |ops| && ops[j].Clear?
  {
    if ops != [] {
      var before := ops[..|ops| - 1];
      LastSetIsSet(before, key);
      if LastSet(ops, key).None? && !ops[|ops| - 1].Clear? {
        forall i | 0 <= i < |ops| && ops[i].Set? && ops[i].key == key
          ensures exists j :: i < j < |ops| && ops[j].Clear?
        {
          assert before[i] == ops[i];
          var j :| i < j < |before| && before[j].Clear?;
          assert ops[j].Clear?;
        }
      }
    }
  }

  /** The stored entry is that of the last `set`, unless it expired and was dropped. */
  ghost predicate Reflects<T>(ttl: int, ops: seq<Op<T>>, key: string, now: int) {
    var store := Run(ttl, ops);
    match LastSet(ops, key)
    case None => key !in store
    case Some(i) =>
      && i < |ops| && ops[i].Set?
      && if key in store then store[key] == Entry(ops[i].at + ttl, ops[i].value) else ops[i].at + ttl < now
  }

  lemma {:induction false} StoreReflectsHistory<T>(ttl: int, ops: seq<Op<T>>, key: string, now: int)
    requires InOrder(ops, now)
    ensures Reflects(ttl, ops, key, now)
  {
    if ops != [] {
      var before, op := ops[..|ops| - 1], ops[|ops| - 1];
      forall i | 0 <= i < |before|
        ensures before[i].at <= op.at
      {
        assert before[i] == ops[i];
      }
      assert InOrder(before, op.at);
      StoreReflectsHistory(ttl, before, key, op.at);
    }
  }

  /** After any history, `get` returns the value of the last `set` since the last `clear`
      exactly as long as it is not older than the time to live, and otherwise nothing: in
      particular, whatever it returns was stored under that key at most `ttl` ago. */
  lemma GetReturnsTheLastSet<T>(ttl: int, ops: seq<Op<T>>, key: string, now: int)
    requires InOrder(ops, now)
    ensures Peek(Run(ttl, ops), key, now) ==
            match LastSet(ops, key)
            case None => None
            case Some(i) => if i < |ops| && ops[i].Set? && now - ops[i].at <= ttl then Some(ops[i].value) else None
  {
    StoreReflectsHistory(ttl, ops, key, now);
  }
}
