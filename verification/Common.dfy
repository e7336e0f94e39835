/** Small vocabulary shared by the whole model: optional values, results with an
    error, duplicate-free sequences, and counting the entries of a map. */
module Common {

  datatype Option<+T> = None | Some(value: T)

  datatype Result<+T, +E> = Ok(value: T) | Err(error: E)

  ghost predicate NoDup<T>(s: seq<T>) {
    forall i, j | 0 <= i < j < |s| :: s[i] != s[j]
  }

  /** `out` is made from exactly the kept ones of `rows`, in their order; `at` says where they
      stand. */
  ghost predicate Picks<A(!new), B(!new)>(rows: seq<A>, out: seq<B>, at: seq<nat>, keep: A -> bool, make: A -> B) {
    && |at| == |out|
    && (forall i, j | 0 <= i < j < |at| :: at[i] < at[j])
    && (forall k | 0 <= k < |at| :: at[k] < |rows| && keep(rows[at[k]]) && out[k] == make(rows[at[k]]))
    && (forall i | 0 <= i < |rows| && keep(rows[i]) :: i in at)
  }

  lemma PicksSnoc<A(!new), B(!new)>(rows: seq<A>, x: A, out: seq<B>, at: seq<nat>, keep: A -> bool, make: A -> B)
    requires Picks(rows, out, at, keep, make)
    ensures keep(x) ==> Picks(rows + [x], out + [make(x)], at + [|rows|], keep, make)
    ensures !keep(x) ==> Picks(rows + [x], out, at, keep, make)
  {
    if keep(x) {
      var at' := at + [|rows|];
      assert at'[|at|] == |rows|;
      forall i | 0 <= i < |rows + [x]| && keep((rows + [x])[i])
        ensures i in at'
      {
        if i < |rows| { assert i in at; }
      }
    }
  }

  ghost function Keys<K, V>(m: map<K, V>, p: V -> bool): set<K> {
    set k | k in m && p(m[k])
  }

  /** The number of keys of `m` whose value satisfies `p`. */
  ghost function Count<K, V>(m: map<K, V>, p: V -> bool): nat {
    |Keys(m, p)|
  }

  function One(b: bool): nat { if b then 1 else 0 }

  /** Overwriting or adding one entry moves the count by that entry alone. */
  lemma CountUpdate<K, V>(m: map<K, V>, k: K, v: V, p: V -> bool)
    ensures Count(m[k := v], p) + One(k in m && p(m[k])) == Count(m, p) + One(p(v))
  {
    CountWithout(m, k, p);
    CountWithout(m[k := v], k, p);
    assert Keys(m[k := v], p) - {k} == Keys(m, p) - {k} by {
      forall x | x != k
        ensures x in Keys(m[k := v], p) <==> x in Keys(m, p)
      {}
    }
  }

  lemma CountWithout<K, V>(m: map<K, V>, k: K, p: V -> bool)
    ensures Count(m, p) == |Keys(m, p) - {k}| + One(k in m && p(m[k]))
  {
    if k in Keys(m, p) {
      assert Keys(m, p) == (Keys(m, p) - {k}) + {k};
    } else {
      assert Keys(m, p) == Keys(m, p) - {k};
    }
  }

  /** Maps that agree on `p` key by key have the same count. */
  lemma CountSame<K, V>(m: map<K, V>, m': map<K, V>, p: V -> bool)
    requires m.Keys == m'.Keys
    requires forall k | k in m :: p(m[k]) == p(m'[k])
    ensures Count(m, p) == Count(m', p)
  {
    assert Keys(m, p) == Keys(m', p);
  }
}
