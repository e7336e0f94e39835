/** What the row limit counts: the total of a value is the number of positions in it, at any
    depth, that are rows of a table. */
module ResultRows {
  import opened Common
  import opened ResultTransform

  /** At `path` there is a row of some table. */
  predicate IsRow(v: Value, path: Path) {
    && path != [] && At(v, path).Some?
    && At(v, path[..|path| - 1]).Some? && At(v, path[..|path| - 1]).value.Table?
  }

  ghost function Under(i: nat, paths: seq<Path>): (r: seq<Path>)
    ensures |r| == |paths| && forall k | 0 <= k < |r| :: r[k] == [i] + paths[k]
  {
    seq(|paths|, k requires 0 <= k < |paths| => [i] + paths[k])
  }

  /** The positions of all rows. */
  ghost function RowPaths(v: Value): seq<Path> {
    match v
    case Dict(items) => ItemRowPaths(items)
    case Table(rows) => TableRowPaths(rows)
    case _ => []
  }

  ghost function ItemRowPaths(items: seq<Item>): seq<Path> {
    if items == [] then []
    else
      var n := |items| - 1;
      ItemRowPaths(items[..n]) + Under(n, RowPaths(items[n].value))
  }

  ghost function TableRowPaths(rows: seq<Value>): seq<Path> {
    if rows == [] then []
    else
      var n := |rows| - 1;
      TableRowPaths(rows[..n]) + ([[n]] + Under(n, RowPaths(rows[n])))
  }

  /** A position in a dict or a table is one of its parts, or a position in one. */
  lemma IsRowIn(v: Value, path: Path)
    ensures v.Dict? ==>
              (IsRow(v, path) <==> path != [] && path[0] < |v.items| && IsRow(v.items[path[0]].value, path[1..]))
    ensures v.Table? ==>
              (IsRow(v, path) <==>
               path != [] && path[0] < |v.rows| && (path == [path[0]] || IsRow(v.rows[path[0]], path[1..])))
    ensures !v.Dict? && !v.Table? ==> !IsRow(v, path)
  {
    if |path| > 1 {
      var up := path[..|path| - 1];
      assert up[0] == path[0] && up[1..] == path[1..][..|path[1..]| - 1];
    } else if |path| == 1 {
      assert path[..0] == [] && path[1..] == [] && path == [path[0]];
      if v.Table? && path[0] < |v.rows| { assert At(v.rows[path[0]], path[1..]).Some?; }
    }
  }

  lemma InUnder(i: nat, paths: seq<Path>, path: Path)
    ensures path in Under(i, paths) <==> path != [] && path[0] == i && path[1..] in paths
  {
    var r := Under(i, paths);
    if path in r {
      var k :| 0 <= k < |r| && r[k] == path;
      assert path[1..] == paths[k];
    }
    if path != [] && path[0] == i && path[1..] in paths {
      var k :| 0 <= k < |paths| && paths[k] == path[1..];
      assert r[k] == path;
    }
  }

  lemma UnderOnce(i: nat, paths: seq<Path>)
    requires NoDup(paths)
    ensures NoDup(Under(i, paths))
  {
    var r := Under(i, paths);
    forall a, b | 0 <= a < b < |r|
      ensures r[a] != r[b]
    {
      assert r[a][1..] == paths[a] && r[b][1..] == paths[b];
    }
  }

  /** `paths` are the rows of `v`, each once, and as many as the total. */
  ghost predicate Lists(paths: seq<Path>, v: Value) {
    && |paths| == Total(v) && NoDup(paths)
    && forall path: Path :: path in paths <==> IsRow(v, path)
  }

  /** The same for the first parts of a dict or a table. */
  ghost predicate ListsItems(paths: seq<Path>, items: seq<Item>) {
    && |paths| == TotalOfItems(items) && NoDup(paths)
    && forall path: Path :: path in paths <==>
         path != [] && path[0] < |items| && IsRow(items[path[0]].value, path[1..])
  }

  ghost predicate ListsRows(paths: seq<Path>, rows: seq<Value>) {
    && |paths| == |rows| + TotalOfRows(rows) && NoDup(paths)
    && forall path: Path :: path in paths <==>
         path != [] && path[0] < |rows| && (path == [path[0]] || IsRow(rows[path[0]], path[1..]))
  }

  /** Lists of positions in different parts have nothing in common. */
  lemma JoinOnce(a: seq<Path>, b: seq<Path>, n: nat)
    requires NoDup(a) && NoDup(b)
    requires forall path | path in a :: path != [] && path[0] < n
    requires forall path | path in b :: path != [] && path[0] == n
    ensures NoDup(a + b)
  {
    forall i, j | 0 <= i < j < |a + b|
      ensures (a + b)[i] != (a + b)[j]
    {
      if i < |a| <= j { assert a[i] in a && b[j - |a|] in b; }
    }
  }

  lemma {:induction false} RowPathsAreRows(v: Value)
    ensures Lists(RowPaths(v), v)
  {
    forall path: Path
      ensures var listed := path in RowPaths(v);
              && (v.Dict? ==> (listed <==> IsRow(v, path)))
              && (v.Table? ==> (listed <==> IsRow(v, path)))
              && !(path in RowPaths(v) && !v.Dict? && !v.Table?) && (!v.Dict? && !v.Table? ==> !IsRow(v, path))
    {
      IsRowIn(v, path);
      if v.Dict? { ItemPathsAreRows(v.items); } else if v.Table? { TablePathsAreRows(v.rows); }
    }
    if v.Dict? { ItemPathsAreRows(v.items); } else if v.Table? { TablePathsAreRows(v.rows); }
  }

  lemma {:induction false} ItemPathsAreRows(items: seq<Item>)
    ensures ListsItems(ItemRowPaths(items), items)
  {
    if items != [] {
      var n := |items| - 1;
      var front, last := items[..n], items[n];
      assert items == front + [last];
      ItemPathsAreRows(front);
      RowPathsAreRows(last.value);
      ItemsSnoc((_, _) => "", front, last);
      var mine := Under(n, RowPaths(last.value));
      UnderOnce(n, RowPaths(last.value));
      forall path: Path
        ensures path in mine <==> path != [] && path[0] == n && IsRow(last.value, path[1..])
      {
        InUnder(n, RowPaths(last.value), path);
      }
      JoinOnce(ItemRowPaths(front), mine, n);
    }
  }

  lemma {:induction false} TablePathsAreRows(rows: seq<Value>)
    ensures ListsRows(TableRowPaths(rows), rows)
  {
    if rows != [] {
      var n := |rows| - 1;
      var front, last := rows[..n], rows[n];
      assert rows == front + [last];
      TablePathsAreRows(front);
      RowPathsAreRows(last);
      RowsSnoc((_, _) => "", front, last);
      var under := Under(n, RowPaths(last));
      var mine := [[n]] + under;
      UnderOnce(n, RowPaths(last));
      forall path: Path
        ensures path in under <==> path != [] && path[0] == n && IsRow(last, path[1..])
      {
        InUnder(n, RowPaths(last), path);
      }
      assert [n] !in under by { assert !IsRow(last, [n][1..]); }
      assert NoDup(mine);
      JoinOnce(TableRowPaths(front), mine, n);
    }
  }

  lemma {:induction false} ItemWithTable(items: seq<Item>, i: nat)
    requires i < |items| && HasTable(items[i].value)
    ensures ItemsHaveTable(items)
  {
    if i > 0 { ItemWithTable(items[1..], i - 1); }
  }

  lemma {:induction false} TableAt(v: Value, path: Path)
    requires At(v, path).Some? && At(v, path).value.Table?
    ensures HasTable(v)
    decreases |path|
  {
    if path != [] && v.Dict? {
      TableAt(v.items[path[0]].value, path[1..]);
      ItemWithTable(v.items, path[0]);
    }
  }

  lemma {:induction false} FindTable(v: Value) returns (path: Path)
    requires HasTable(v)
    ensures At(v, path).Some? && At(v, path).value.Table?
  {
    if v.Table? {
      path := [];
    } else {
      var i, rest := FindItemTable(v.items);
      path := [i] + rest;
      assert path[1..] == rest;
    }
  }

  lemma {:induction false} FindItemTable(items: seq<Item>) returns (i: nat, path: Path)
    requires ItemsHaveTable(items)
    ensures i < |items| && At(items[i].value, path).Some? && At(items[i].value, path).value.Table?
  {
    if HasTable(items[0].value) {
      i := 0;
      path := FindTable(items[0].value);
    } else {
      i, path := FindItemTable(items[1..]);
      i := i + 1;
    }
  }

  /** The total that the row limit is compared with is the number of rows of all tables at
      every depth: there are exactly that many positions of rows. And a value counts as having a
      table if and only if there is one at some position. */
  lemma TotalCountsRows(v: Value)
    ensures exists paths: seq<Path> ::
              |paths| == Total(v) && NoDup(paths) && forall path: Path :: path in paths <==> IsRow(v, path)
    ensures HasTable(v) <==> exists path: Path :: At(v, path).Some? && At(v, path).value.Table?
  {
    RowPathsAreRows(v);
    assert Lists(RowPaths(v), v);
    if HasTable(v) {
      var path := FindTable(v);
    }
    forall path: Path | At(v, path).Some? && At(v, path).value.Table?
      ensures HasTable(v)
    {
      TableAt(v, path);
    }
  }
}
