/** What the flattened list is: the pre-order of all paths through the data dictionary that do
    not repeat a structure, cut at the depth cap. */
module StructurePaths {
  import opened Common
  import opened StructureResolver

  // ---- the depth cap ----

  /** No structure in `universe` refers to one outside it. Cycles are allowed. */
  ghost predicate Closed(d: Dictionary, universe: set<string>) {
    forall name: string | Key(d, name) in universe && d.define(name).Ok? ::
      StaysIn(d, universe, Key(d, name), d.define(name).value)
  }

  ghost predicate StaysIn(d: Dictionary, universe: set<string>, key: string, rows: seq<Row>) {
    forall i | 0 <= i < |rows| && !Blank(d, rows[i]) && Refers(d, rows[i], key) ::
        Key(d, Nested(d, rows[i])) in universe
  }

  lemma OneFewer(universe: set<string>, seen: set<string>, key: string)
    requires key in universe && key !in seen
    ensures |universe - (seen + {key})| == |universe - seen| - 1
  {
    assert universe - (seen + {key}) == (universe - seen) - {key};
  }

  /** Over a closed, possibly cyclic universe, every cap of at least the number of structures
      not yet seen gives the same list: the seen-set alone ends the recursion. */
  lemma {:induction false} CapIsIrrelevant(d: Dictionary, universe: set<string>, name: string, seen: set<string>,
      depth1: int, depth2: int)
    requires Closed(d, universe) && Key(d, name) in universe
    requires depth1 >= |universe - seen| && depth2 >= |universe - seen|
    ensures Resolve(d, name, depth1, seen) == Resolve(d, name, depth2, seen)
    decreases |universe - seen|, 1, 0
  {
    var key := Key(d, name);
    if key != "" && key !in seen {
      OneFewer(universe, seen, key);
      if d.define(name).Ok? {
        CapIsIrrelevantInRows(d, universe, key, d.define(name).value, seen + {key}, depth1, depth2);
      }
    }
  }

  lemma {:induction false} CapIsIrrelevantInRows(d: Dictionary, universe: set<string>, key: string, rows: seq<Row>,
      seen: set<string>, depth1: int, depth2: int)
    requires Closed(d, universe) && StaysIn(d, universe, key, rows)
    requires depth1 - 1 >= |universe - seen| && depth2 - 1 >= |universe - seen|
    ensures Expand(d, key, rows, depth1, seen) == Expand(d, key, rows, depth2, seen)
    decreases |universe - seen|, 2, |rows|
  {
    if rows != [] {
      if !Blank(d, rows[0]) && Refers(d, rows[0], key) {
        CapIsIrrelevant(d, universe, Nested(d, rows[0]), seen, depth1 - 1, depth2 - 1);
      }
      assert forall i | 0 <= i < |rows[1..]| :: rows[1..][i] == rows[i + 1];
      CapIsIrrelevantInRows(d, universe, key, rows[1..], seen, depth1, depth2);
    }
  }

  // ---- one more level ----

  /** `a` can be obtained from `b` by leaving elements out. */
  predicate Subsequence<T(==)>(a: seq<T>, b: seq<T>) {
    if a == [] then true
    else if b == [] then false
    else (a[0] == b[0] && Subsequence(a[1..], b[1..])) || Subsequence(a, b[1..])
  }

  lemma {:induction false} SubsequenceOfMore<T>(a: seq<T>, b: seq<T>, c: seq<T>)
    requires Subsequence(a, b)
    ensures Subsequence(a, c + b)
  {
    if c == [] {
      assert c + b == b;
    } else {
      SubsequenceOfMore(a, b, c[1..]);
      assert (c + b)[1..] == c[1..] + b;
    }
  }

  lemma {:induction false} SubsequenceConcat<T>(a: seq<T>, b: seq<T>, c: seq<T>, e: seq<T>)
    requires Subsequence(a, b) && Subsequence(c, e)
    ensures Subsequence(a + c, b + e)
    decreases |a| + |b|
  {
    if a == [] {
      assert a + c == c;
      SubsequenceOfMore(c, e, b);
    } else if a[0] == b[0] && Subsequence(a[1..], b[1..]) {
      SubsequenceConcat(a[1..], b[1..], c, e);
      assert (a + c)[1..] == a[1..] + c && (b + e)[1..] == b[1..] + e;
    } else {
      SubsequenceConcat(a, b[1..], c, e);
      assert (b + e)[1..] == b[1..] + e;
    }
  }

  ghost predicate Refines(a: Fields, b: Fields) {
    b.Ok? ==> a.Ok? && Subsequence(a.value, b.value)
  }

  lemma ThenRefines(a: Fields, b: Fields, a': Fields, b': Fields)
    requires Refines(a, a') && Refines(b, b')
    ensures Refines(Then(a, b), Then(a', b'))
  {
    if a'.Ok? && b'.Ok? { SubsequenceConcat(a.value, a'.value, b.value, b'.value); }
  }

  /** The list for a cap is a subsequence of the list for the next cap; and if the deeper
      resolution does not fail, neither does the shallower one. */
  lemma {:induction false} DeeperIsLonger(d: Dictionary, name: string, depth: nat, seen: set<string>)
    ensures Refines(Resolve(d, name, depth, seen), Resolve(d, name, depth + 1, seen))
    decreases depth, 1, 0
  {
    var key := Key(d, name);
    if depth > 0 && key != "" && key !in seen && d.define(name).Ok? {
      DeeperIsLongerInRows(d, key, d.define(name).value, depth, seen + {key});
    }
  }

  lemma {:induction false} DeeperIsLongerInRows(d: Dictionary, key: string, rows: seq<Row>, depth: nat,
      seen: set<string>)
    requires depth > 0
    ensures Refines(Expand(d, key, rows, depth, seen), Expand(d, key, rows, depth + 1, seen))
    decreases depth, 0, |rows|
  {
    if rows != [] {
      DeeperIsLongerInRows(d, key, rows[1..], depth, seen);
      DeeperIsLongerInRow(d, key, rows[0], depth, seen);
      ThenRefines(ExpandRow(d, key, rows[0], depth, seen), Expand(d, key, rows[1..], depth, seen),
                  ExpandRow(d, key, rows[0], depth + 1, seen), Expand(d, key, rows[1..], depth + 1, seen));
    }
  }

  lemma {:induction false} DeeperIsLongerInRow(d: Dictionary, key: string, row: Row, depth: nat, seen: set<string>)
    requires depth > 0
    ensures Refines(ExpandRow(d, key, row, depth, seen), ExpandRow(d, key, row, depth + 1, seen))
    decreases depth, 0, 0
  {
    if !Blank(d, row) && Refers(d, row, key) {
      DeeperIsLonger(d, Nested(d, row), depth - 1, seen);
      ThenRefines(Ok([Field(d, row)]), Resolve(d, Nested(d, row), depth - 1, seen),
                  Ok([Field(d, row)]), Resolve(d, Nested(d, row), depth, seen));
    }
  }

  // ---- how many lookups ----

  /** 1 + b + ... + b^(depth-1) */
  function Geometric(b: nat, depth: int): nat
    decreases depth
  {
    if depth <= 0 then 0 else 1 + b * Geometric(b, depth - 1)
  }

  ghost predicate AtMostRows(d: Dictionary, b: nat) {
    forall name: string | d.define(name).Ok? :: |d.define(name).value| <= b
  }

  /** With at most `b` rows per structure, at most 1 + b + ... + b^(depth-1) lookups are made. */
  lemma {:induction false} LookupsAreBounded(d: Dictionary, b: nat, name: string, depth: int, seen: set<string>)
    requires AtMostRows(d, b)
    ensures |Lookups(d, name, depth, seen)| <= Geometric(b, depth)
    decreases depth, 1, 0
  {
    var key := Key(d, name);
    if key != "" && key !in seen && depth > 0 && d.define(name).Ok? {
      var rows := d.define(name).value;
      RowLookupsAreBounded(d, b, key, rows, depth, seen + {key});
      Multiplied(|rows|, b, Geometric(b, depth - 1));
    }
  }

  lemma Multiplied(n: nat, b: nat, g: nat)
    requires n <= b
    ensures n * g <= b * g
  {}

  lemma {:induction false} RowLookupsAreBounded(d: Dictionary, b: nat, key: string, rows: seq<Row>, depth: int,
      seen: set<string>)
    requires AtMostRows(d, b) && depth > 0
    ensures |RowLookups(d, key, rows, depth, seen)| <= |rows| * Geometric(b, depth - 1)
    decreases depth, 0, |rows|
  {
    if rows != [] {
      RowLookupsAreBounded(d, b, key, rows[1..], depth, seen);
      if !Blank(d, rows[0]) && Refers(d, rows[0], key) {
        LookupsAreBounded(d, b, Nested(d, rows[0]), depth - 1, seen);
      }
      var g := Geometric(b, depth - 1);
      assert |rows| * g == |rows[1..]| * g + g;
    }
  }

  // ---- failures ----

  /** The outcome fits the lookups: all succeeded, or exactly the last one failed and its error
      is the outcome. */
  ghost predicate Explains(d: Dictionary, names: seq<string>, r: Fields) {
    if r.Ok? then forall i | 0 <= i < |names| :: d.define(names[i]).Ok?
    else
      && names != [] && d.define(names[|names| - 1]) == Err(r.error)
      && forall i | 0 <= i < |names| - 1 :: d.define(names[i]).Ok?
  }

  lemma ExplainsMore(d: Dictionary, a: seq<string>, x: Fields, b: seq<string>, y: Fields)
    requires Explains(d, a, x) && x.Ok? && Explains(d, b, y)
    ensures Explains(d, a + b, Then(x, y))
  {
    if y.Err? { assert (a + b)[|a + b| - 1] == b[|b| - 1]; }
  }

  /** A resolution fails exactly when one of its lookups does, with that error, and it makes
      no lookup after it. */
  lemma {:induction false} FailureIsTheLastLookup(d: Dictionary, name: string, depth: int, seen: set<string>)
    ensures Explains(d, Lookups(d, name, depth, seen), Resolve(d, name, depth, seen))
    decreases depth, 1, 0
  {
    var key := Key(d, name);
    if key != "" && key !in seen && depth > 0 && d.define(name).Ok? {
      var rows := d.define(name).value;
      FailureInRows(d, key, rows, depth, seen + {key});
      ExplainsMore(d, [name], Ok([]), RowLookups(d, key, rows, depth, seen + {key}),
        Expand(d, key, rows, depth, seen + {key}));
    }
  }

  lemma {:induction false} FailureInRows(d: Dictionary, key: string, rows: seq<Row>, depth: int, seen: set<string>)
    requires depth > 0
    ensures Explains(d, RowLookups(d, key, rows, depth, seen), Expand(d, key, rows, depth, seen))
    decreases depth, 0, |rows|
  {
    if rows != [] {
      var first := ExpandRow(d, key, rows[0], depth, seen);
      if !Blank(d, rows[0]) && Refers(d, rows[0], key) {
        FailureIsTheLastLookup(d, Nested(d, rows[0]), depth - 1, seen);
      }
      FailureInRows(d, key, rows[1..], depth, seen);
      if first.Ok? {
        ExplainsMore(d, LookupsOf(d, key, rows[0], depth, seen), first, RowLookups(d, key, rows[1..], depth, seen),
          Expand(d, key, rows[1..], depth, seen));
      }
    }
  }

  // ---- paths ----

  /** A path names a row of the first structure, then a row of the structure that row refers
      to, and so on; it stands for the field of its last row. */
  type Path = seq<nat>

  function FieldAt(d: Dictionary, name: string, p: Path): Option<FieldInfo>
    decreases |p|
  {
    if p == [] || d.define(name).Err? || p[0] >= |d.define(name).value| then None
    else
      var row := d.define(name).value[p[0]];
      var fieldName, structure := d.strip(row.fieldName), d.strip(row.tabName);
      if fieldName == "" then None
      else if |p| == 1 then Some(FieldInfo(fieldName, row.attributes))
      else if structure == "" then None
      else FieldAt(d, structure, p[1..])
  }

  /** The structures along the path, as the resolver tells them apart. */
  function KeysAlong(d: Dictionary, name: string, p: Path): seq<string>
    decreases |p|
  {
    [d.upper(d.strip(name))] +
    if |p| <= 1 || d.define(name).Err? || p[0] >= |d.define(name).value| then []
    else KeysAlong(d, d.strip(d.define(name).value[p[0]].tabName), p[1..])
  }

  /** The path leads to a field, and its structures are named, new and all different. */
  ghost predicate ValidPath(d: Dictionary, name: string, p: Path, seen: set<string>) {
    FieldAt(d, name, p).Some? && New(KeysAlong(d, name, p), seen)
  }

  ghost predicate New(keys: seq<string>, seen: set<string>) {
    NoDup(keys) && forall i | 0 <= i < |keys| :: keys[i] != "" && keys[i] !in seen
  }

  /** Pre-order: a path comes before its extensions, and rows in their order. */
  predicate Before(p: Path, q: Path) {
    q != [] && (p == [] || p[0] < q[0] || (p[0] == q[0] && Before(p[1..], q[1..])))
  }

  ghost predicate InPreOrder(ps: seq<Path>) {
    forall i, j | 0 <= i < j < |ps| :: Before(ps[i], ps[j])
  }

  function Under(i: nat, ps: seq<Path>): seq<Path> { seq(|ps|, j requires 0 <= j < |ps| => [i] + ps[j]) }

  /** The valid paths up to length `depth`, as the recursion meets them. */
  function Paths(d: Dictionary, name: string, depth: int, seen: set<string>): seq<Path>
    decreases depth, 1, 0
  {
    var key := Key(d, name);
    if key == "" || key in seen || depth <= 0 || d.define(name).Err? then []
    else RowPaths(d, key, d.define(name).value, 0, depth, seen + {key})
  }

  function RowPaths(d: Dictionary, key: string, rows: seq<Row>, i: nat, depth: int, seen: set<string>): seq<Path>
    requires depth > 0 && i <= |rows|
    decreases depth, 0, |rows| - i
  {
    if i == |rows| then [] else OnePath(d, key, rows[i], i, depth, seen) + RowPaths(d, key, rows, i + 1, depth, seen)
  }

  function OnePath(d: Dictionary, key: string, row: Row, i: nat, depth: int, seen: set<string>): seq<Path>
    requires depth > 0
    decreases depth, 0, 0
  {
    if Blank(d, row) then []
    else [[i]] + if Refers(d, row, key) then Under(i, Paths(d, Nested(d, row), depth - 1, seen)) else []
  }

  // ---- the recursion meets exactly the valid paths ----

  /** Stripping twice is stripping once. */
  ghost predicate StripIsStable(d: Dictionary) {
    forall s: string :: d.strip(d.strip(s)) == d.strip(s)
  }

  lemma NestedKey(d: Dictionary, row: Row)
    requires StripIsStable(d)
    ensures Key(d, Nested(d, row)) == d.upper(Nested(d, row))
  {}

  lemma NewStep(key: string, rest: seq<string>, seen: set<string>)
    ensures New([key] + rest, seen) <==> key != "" && key !in seen && New(rest, seen + {key})
  {
    var all := [key] + rest;
    assert forall i | 0 <= i < |rest| :: all[i + 1] == rest[i];
    if New(all, seen) {
      assert all[0] == key;
      forall i | 0 <= i < |rest|
        ensures rest[i] != "" && rest[i] !in seen + {key}
      {
        assert all[i + 1] != all[0];
      }
      forall i, j | 0 <= i < j < |rest|
        ensures rest[i] != rest[j]
      {
        assert all[i + 1] != all[j + 1];
      }
    }
  }

  lemma KeysStep(d: Dictionary, name: string, p: Path, seen: set<string>)
    requires |p| > 1 && d.define(name).Ok? && p[0] < |d.define(name).value|
    ensures var nested, key := Nested(d, d.define(name).value[p[0]]), Key(d, name);
            ValidPath(d, name, p, seen) <==>
              && key != "" && key !in seen && !Blank(d, d.define(name).value[p[0]]) && nested != ""
              && ValidPath(d, nested, p[1..], seen + {key})
  {
    NewStep(Key(d, name), KeysAlong(d, Nested(d, d.define(name).value[p[0]]), p[1..]), seen);
    hide New;
  }

  lemma InUnder(i: nat, ps: seq<Path>, p: Path)
    ensures p in Under(i, ps) <==> p != [] && p[0] == i && p[1..] in ps
  {
    var under := Under(i, ps);
    if p in under {
      var j :| 0 <= j < |under| && under[j] == p;
      assert p[1..] == ps[j];
    }
    if p != [] && p[0] == i && p[1..] in ps {
      var j :| 0 <= j < |ps| && ps[j] == p[1..];
      assert under[j] == [i] + p[1..] == p;
    }
  }

  lemma InOnePath(d: Dictionary, key: string, row: Row, i: nat, depth: int, seen: set<string>, p: Path)
    requires depth > 0
    ensures p in OnePath(d, key, row, i, depth, seen) <==>
            !Blank(d, row) && p != [] && p[0] == i &&
            (|p| == 1 || (Refers(d, row, key) && p[1..] in Paths(d, Nested(d, row), depth - 1, seen)))
    ensures [] !in Paths(d, Nested(d, row), depth - 1, seen)
  {
    EmptyIsNoPath(d, Nested(d, row), depth - 1, seen);
    InUnder(i, Paths(d, Nested(d, row), depth - 1, seen), p);
    if |p| == 1 && p[0] == i { assert p == [i]; }
  }

  lemma EmptyIsNoPath(d: Dictionary, name: string, depth: int, seen: set<string>)
    ensures [] !in Paths(d, name, depth, seen)
  {
    var key := Key(d, name);
    if !(key == "" || key in seen || depth <= 0 || d.define(name).Err?) {
      HeadsFrom(d, key, d.define(name).value, 0, depth, seen + {key});
    }
  }

  lemma {:induction false} HeadsFrom(d: Dictionary, key: string, rows: seq<Row>, i: nat, depth: int, seen: set<string>)
    requires depth > 0 && i <= |rows|
    ensures forall p | p in RowPaths(d, key, rows, i, depth, seen) :: p != [] && p[0] >= i
    decreases |rows| - i
  {
    if i < |rows| {
      HeadsFrom(d, key, rows, i + 1, depth, seen);
      forall p | p in OnePath(d, key, rows[i], i, depth, seen)
        ensures p != [] && p[0] >= i
      {
        if Refers(d, rows[i], key) { InUnder(i, Paths(d, Nested(d, rows[i]), depth - 1, seen), p); }
      }
    }
  }

  lemma {:induction false} InRowPaths(d: Dictionary, key: string, rows: seq<Row>, i: nat, depth: int,
      seen: set<string>, p: Path)
    requires depth > 0 && i <= |rows|
    ensures p in RowPaths(d, key, rows, i, depth, seen) <==>
            p != [] && i <= p[0] < |rows| && p in OnePath(d, key, rows[p[0]], p[0], depth, seen)
    decreases |rows| - i
  {
    if i < |rows| {
      InRowPaths(d, key, rows, i + 1, depth, seen, p);
      InOnePath(d, key, rows[i], i, depth, seen, p);
    }
  }

  lemma {:induction false} PathsAreTheValidOnes(d: Dictionary, name: string, depth: int, seen: set<string>, p: Path)
    requires StripIsStable(d)
    ensures p in Paths(d, name, depth, seen) <==> ValidPath(d, name, p, seen) && |p| <= depth
    decreases |p|
  {
    hide RowPaths, OnePath;
    var key := Key(d, name);
    assert KeysAlong(d, name, p)[0] == key;
    if !(key == "" || key in seen || depth <= 0 || d.define(name).Err?) {
      var rows := d.define(name).value;
      InRowPaths(d, key, rows, 0, depth, seen + {key}, p);
      if p != [] && p[0] < |rows| {
        var row := rows[p[0]];
        InOnePath(d, key, row, p[0], depth, seen + {key}, p);
        if |p| > 1 {
          PathsAreTheValidOnes(d, Nested(d, row), depth - 1, seen + {key}, p[1..]);
          KeysStep(d, name, p, seen);
          NestedKey(d, row);
          assert KeysAlong(d, Nested(d, row), p[1..])[0] == Key(d, Nested(d, row));
        } else {
          assert KeysAlong(d, name, p) == [key];
        }
      }
    }
  }

  // ---- in pre-order ----

  lemma UnderKeepsOrder(i: nat, ps: seq<Path>)
    requires InPreOrder(ps) && [] !in ps
    ensures InPreOrder([[i]] + Under(i, ps))
  {
    var under := Under(i, ps);
    forall j, k | 0 <= j < k < |under|
      ensures Before(under[j], under[k])
    {
      assert under[j][1..] == ps[j] && under[k][1..] == ps[k];
    }
    forall k | 0 <= k < |under|
      ensures Before([i], under[k])
    {
      assert under[k][1..] == ps[k] && ps[k] in ps && [i][1..] == [];
    }
  }

  lemma {:induction false} PathsInPreOrder(d: Dictionary, name: string, depth: int, seen: set<string>)
    ensures InPreOrder(Paths(d, name, depth, seen))
    decreases depth, 1, 0
  {
    var key := Key(d, name);
    if !(key == "" || key in seen || depth <= 0 || d.define(name).Err?) {
      RowPathsInPreOrder(d, key, d.define(name).value, 0, depth, seen + {key});
    }
  }

  lemma {:induction false} RowPathsInPreOrder(d: Dictionary, key: string, rows: seq<Row>, i: nat, depth: int,
      seen: set<string>)
    requires depth > 0 && i <= |rows|
    ensures InPreOrder(RowPaths(d, key, rows, i, depth, seen))
    decreases depth, 0, |rows| - i
  {
    if i < |rows| {
      var first, rest := OnePath(d, key, rows[i], i, depth, seen), RowPaths(d, key, rows, i + 1, depth, seen);
      RowPathsInPreOrder(d, key, rows, i + 1, depth, seen);
      HeadsFrom(d, key, rows, i + 1, depth, seen);
      var nested := Paths(d, Nested(d, rows[i]), depth - 1, seen);
      PathsInPreOrder(d, Nested(d, rows[i]), depth - 1, seen);
      EmptyIsNoPath(d, Nested(d, rows[i]), depth - 1, seen);
      UnderKeepsOrder(i, nested);
      assert InPreOrder(first) by { assert [[i]] + [] == [[i]]; }
      forall p | p in first
        ensures p != [] && p[0] == i
      {
        InOnePath(d, key, rows[i], i, depth, seen, p);
      }
      forall j, k | 0 <= j < |first| && 0 <= k < |rest|
        ensures Before(first[j], rest[k])
      {
        assert first[j] in first && rest[k] in rest;
      }
    }
  }

  // ---- the fields are those of the paths ----

  ghost predicate Lists(d: Dictionary, name: string, ps: seq<Path>, fields: seq<FieldInfo>) {
    |ps| == |fields| && forall j | 0 <= j < |ps| :: FieldAt(d, name, ps[j]) == Some(fields[j])
  }

  lemma {:induction false} FieldsOfPaths(d: Dictionary, name: string, depth: int, seen: set<string>)
    requires Resolve(d, name, depth, seen).Ok?
    ensures Lists(d, name, Paths(d, name, depth, seen), Resolve(d, name, depth, seen).value)
    decreases depth, 1, 0
  {
    var key := Key(d, name);
    if !(key == "" || key in seen || depth <= 0) {
      var rows := d.define(name).value;
      assert rows[0..] == rows;
      FieldsOfRows(d, name, rows, 0, depth, seen + {key});
    }
  }

  lemma {:induction false} FieldsOfRows(d: Dictionary, name: string, rows: seq<Row>, i: nat, depth: int,
      seen: set<string>)
    requires depth > 0 && d.define(name) == Ok(rows) && i <= |rows|
    requires Expand(d, Key(d, name), rows[i..], depth, seen).Ok?
    ensures Lists(d, name, RowPaths(d, Key(d, name), rows, i, depth, seen),
            Expand(d, Key(d, name), rows[i..], depth, seen).value)
    decreases depth, 0, |rows| - i
  {
    if i < |rows| {
      var key, row := Key(d, name), rows[i];
      assert rows[i..][1..] == rows[i + 1..];
      FieldsOfRows(d, name, rows, i + 1, depth, seen);
      if !Blank(d, row) && Refers(d, row, key) {
        FieldsOfPaths(d, Nested(d, row), depth - 1, seen);
        FieldsUnder(d, name, rows, i, Paths(d, Nested(d, row), depth - 1, seen),
          Resolve(d, Nested(d, row), depth - 1, seen).value);
      }
    }
  }

  lemma FieldsUnder(d: Dictionary, name: string, rows: seq<Row>, i: nat, ps: seq<Path>, fields: seq<FieldInfo>)
    requires d.define(name) == Ok(rows) && i < |rows| && !Blank(d, rows[i]) && Nested(d, rows[i]) != ""
    requires Lists(d, Nested(d, rows[i]), ps, fields)
    ensures Lists(d, name, Under(i, ps), fields)
  {
    forall j | 0 <= j < |ps|
      ensures FieldAt(d, name, Under(i, ps)[j]) == Some(fields[j])
    {
      assert ([i] + ps[j])[1..] == ps[j];
    }
  }

  /** A successful resolution lists, in pre-order, the fields of exactly those paths that are
      valid and no longer than the depth cap. */
  lemma FlatteningIsPreOrder(d: Dictionary, name: string, depth: int, seen: set<string>)
    requires StripIsStable(d) && Resolve(d, name, depth, seen).Ok?
    ensures exists ps: seq<Path> ::
              && InPreOrder(ps)
              && (forall p: Path :: p in ps <==> ValidPath(d, name, p, seen) && |p| <= depth)
              && Lists(d, name, ps, Resolve(d, name, depth, seen).value)
  {
    var ps := Paths(d, name, depth, seen);
    PathsInPreOrder(d, name, depth, seen);
    forall p: Path
      ensures p in ps <==> ValidPath(d, name, p, seen) && |p| <= depth
    {
      PathsAreTheValidOnes(d, name, depth, seen, p);
    }
    FieldsOfPaths(d, name, depth, seen);
  }

  // ---- all non-repeating paths ----

  /** A valid path stays in a closed universe. */
  lemma {:induction false} KeysStayIn(d: Dictionary, universe: set<string>, name: string, p: Path, seen: set<string>)
    requires StripIsStable(d) && Closed(d, universe) && Key(d, name) in universe && ValidPath(d, name, p, seen)
    ensures |KeysAlong(d, name, p)| == |p|
    ensures forall k | k in KeysAlong(d, name, p) :: k in universe - seen
    decreases |p|
  {
    var key := Key(d, name);
    assert KeysAlong(d, name, p)[0] == key;
    if |p| > 1 {
      var rows := d.define(name).value;
      var nested := Nested(d, rows[p[0]]);
      KeysStep(d, name, p, seen);
      NestedKey(d, rows[p[0]]);
      assert KeysAlong(d, nested, p[1..])[0] == Key(d, nested);
      assert StaysIn(d, universe, key, rows);
      KeysStayIn(d, universe, nested, p[1..], seen + {key});
    } else {
      assert KeysAlong(d, name, p) == [key];
    }
  }

  lemma {:induction false} DistinctFit(s: seq<string>, all: set<string>)
    requires NoDup(s) && forall x | x in s :: x in all
    ensures |s| <= |all|
  {
    if s != [] {
      var rest := s[1..];
      forall x | x in rest
        ensures x in all - {s[0]}
      {
        var i :| 0 <= i < |rest| && rest[i] == x;
        assert s[i + 1] == x;
      }
      assert forall i | 0 <= i < |rest| :: rest[i] == s[i + 1];
      DistinctFit(rest, all - {s[0]});
    }
  }

  /** Over a closed universe, a successful resolution under a cap of at least the number of
      unseen structures lists in pre-order the fields of all non-repeating paths, whatever
      their length. */
  lemma FlatteningIsComplete(d: Dictionary, universe: set<string>, name: string, depth: int, seen: set<string>)
    requires StripIsStable(d) && Closed(d, universe) && Key(d, name) in universe
    requires depth >= |universe - seen| && Resolve(d, name, depth, seen).Ok?
    ensures exists ps: seq<Path> ::
              && InPreOrder(ps)
              && (forall p: Path :: p in ps <==> ValidPath(d, name, p, seen))
              && Lists(d, name, ps, Resolve(d, name, depth, seen).value)
  {
    var ps := Paths(d, name, depth, seen);
    PathsInPreOrder(d, name, depth, seen);
    FieldsOfPaths(d, name, depth, seen);
    forall p: Path
      ensures p in ps <==> ValidPath(d, name, p, seen)
    {
      PathsAreTheValidOnes(d, name, depth, seen, p);
      if ValidPath(d, name, p, seen) {
        KeysStayIn(d, universe, name, p, seen);
        DistinctFit(KeysAlong(d, name, p), universe - seen);
      }
    }
  }
}
