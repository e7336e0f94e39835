/** Conversion of RFC results to JSON-safe values, and the limits applied on the way. */
module ResultTransform {
  import opened Common

  /** What a pyrfc result is made of. `Special` are the values JSON has no form for. */
  datatype Kind = DateTime | Date | TimeOfDay | Decimal | Bytes

  datatype Value =
    | Dict(items: seq<Item>)
    | Table(rows: seq<Value>)
    | Special(kind: Kind, raw: nat)
    | Text(text: string)
    | Plain(raw: nat)

  datatype Item = Item(key: string, value: Value)

  /** isoformat, str or decode, by kind. */
  type Render = (Kind, nat) -> string

  /** `to_json_safe`. */
  function Safe(render: Render, v: Value): Value {
    match v
    case Dict(items) => Dict(SafeItems(render, items))
    case Table(rows) => Table(SafeRows(render, rows))
    case Special(kind, raw) => Text(render(kind, raw))
    case Text(_) => v
    case Plain(_) => v
  }

  function SafeItems(render: Render, items: seq<Item>): seq<Item> {
    if items == [] then []
    else [Item(items[0].key, Safe(render, items[0].value))] + SafeItems(render, items[1..])
  }

  function SafeRows(render: Render, rows: seq<Value>): seq<Value> {
    if rows == [] then [] else [Safe(render, rows[0])] + SafeRows(render, rows[1..])
  }

  // ---- what conversion does ----

  /** `w` is `v` in JSON-safe form: the same dicts with the same keys and the same tables with
      the same rows, in the same order, at every depth; texts and plain values as they were;
      and for every special value the text that it renders to. */
  ghost predicate Renders(render: Render, v: Value, w: Value)
    decreases v
  {
    match v
    case Dict(items) =>
      && w.Dict? && |w.items| == |items|
      && forall i | 0 <= i < |items| ::
           w.items[i].key == items[i].key && Renders(render, items[i].value, w.items[i].value)
    case Table(rows) =>
      && w.Table? && |w.rows| == |rows|
      && forall i | 0 <= i < |rows| :: Renders(render, rows[i], w.rows[i])
    case Special(kind, raw) => w == Text(render(kind, raw))
    case Text(_) => w == v
    case Plain(_) => w == v
  }

  lemma {:induction false} SafeRenders(render: Render, v: Value)
    ensures Renders(render, v, Safe(render, v))
  {
    match v
    case Dict(items) => SafeItemsRender(render, items);
    case Table(rows) => SafeRowsRender(render, rows);
    case Special(_, _) =>
    case Text(_) =>
    case Plain(_) =>
  }

  lemma {:induction false} SafeItemsRender(render: Render, items: seq<Item>)
    ensures var safe := SafeItems(render, items);
            |safe| == |items| && forall i | 0 <= i < |items| ::
              safe[i].key == items[i].key && Renders(render, items[i].value, safe[i].value)
  {
    if items != [] {
      SafeRenders(render, items[0].value);
      SafeItemsRender(render, items[1..]);
      assert forall i | 1 <= i < |items| :: items[i] == items[1..][i - 1];
    }
  }

  lemma {:induction false} SafeRowsRender(render: Render, rows: seq<Value>)
    ensures var safe := SafeRows(render, rows);
            |safe| == |rows| && forall i | 0 <= i < |rows| :: Renders(render, rows[i], safe[i])
  {
    if rows != [] {
      SafeRenders(render, rows[0]);
      SafeRowsRender(render, rows[1..]);
      assert forall i | 1 <= i < |rows| :: rows[i] == rows[1..][i - 1];
    }
  }

  /** A value has one JSON-safe form. */
  lemma {:induction false} RenderingIsUnique(render: Render, v: Value, w: Value, x: Value)
    requires Renders(render, v, w) && Renders(render, v, x)
    ensures w == x
    decreases v
  {
    match v
    case Dict(items) =>
      forall i | 0 <= i < |items|
        ensures w.items[i] == x.items[i]
      {
        RenderingIsUnique(render, items[i].value, w.items[i].value, x.items[i].value);
      }
    case Table(rows) =>
      forall i | 0 <= i < |rows|
        ensures w.rows[i] == x.rows[i]
      {
        RenderingIsUnique(render, rows[i], w.rows[i], x.rows[i]);
      }
    case Special(_, _) =>
    case Text(_) =>
    case Plain(_) =>
  }

  // ---- positions in a value ----

  /** Which item or row to go into, at each depth. */
  type Path = seq<nat>

  function At(v: Value, path: Path): Option<Value>
    decreases |path|
  {
    if path == [] then Some(v)
    else
      match v
      case Dict(items) => if path[0] < |items| then At(items[path[0]].value, path[1..]) else None
      case Table(rows) => if path[0] < |rows| then At(rows[path[0]], path[1..]) else None
      case _ => None
  }

  /** Nothing special is left at any depth: json.dumps has a form for every part. */
  lemma {:induction false} NothingSpecialIsLeft(render: Render, v: Value, w: Value, path: Path)
    requires Renders(render, v, w)
    ensures At(w, path).Some? ==> !At(w, path).value.Special?
    decreases |path|
  {
    if path != [] {
      match v
      case Dict(items) =>
        if path[0] < |items| { NothingSpecialIsLeft(render, items[path[0]].value, w.items[path[0]].value, path[1..]); }
      case Table(rows) =>
        if path[0] < |rows| { NothingSpecialIsLeft(render, rows[path[0]], w.rows[path[0]], path[1..]); }
      case Special(_, _) =>
      case Text(_) =>
      case Plain(_) =>
    }
  }

  // ---- the rows of a value ----

  /** The lengths of all tables at every depth, added up. */
  function Total(v: Value): nat {
    match v
    case Dict(items) => TotalOfItems(items)
    case Table(rows) => |rows| + TotalOfRows(rows)
    case _ => 0
  }

  function TotalOfItems(items: seq<Item>): nat {
    if items == [] then 0 else Total(items[0].value) + TotalOfItems(items[1..])
  }

  function TotalOfRows(rows: seq<Value>): nat {
    if rows == [] then 0 else Total(rows[0]) + TotalOfRows(rows[1..])
  }

  predicate HasTable(v: Value) {
    match v
    case Dict(items) => ItemsHaveTable(items)
    case Table(_) => true
    case _ => false
  }

  predicate ItemsHaveTable(items: seq<Item>) {
    items != [] && (HasTable(items[0].value) || ItemsHaveTable(items[1..]))
  }

  lemma {:induction false} NoTableNoRows(v: Value)
    requires !HasTable(v)
    ensures Total(v) == 0
  {
    if v.Dict? { NoTableNoItemRows(v.items); }
  }

  lemma {:induction false} NoTableNoItemRows(items: seq<Item>)
    requires !ItemsHaveTable(items)
    ensures TotalOfItems(items) == 0
  {
    if items != [] {
      NoTableNoRows(items[0].value);
      NoTableNoItemRows(items[1..]);
    }
  }

  // ---- what conversion keeps ----

  /** Converting again changes nothing. */
  lemma {:induction false} SafeIsIdempotent(render: Render, v: Value)
    ensures Safe(render, Safe(render, v)) == Safe(render, v)
  {
    match v
    case Dict(items) => SafeItemsIdempotent(render, items);
    case Table(rows) => SafeRowsIdempotent(render, rows);
    case Special(_, _) =>
    case Text(_) =>
    case Plain(_) =>
  }

  lemma {:induction false} SafeItemsIdempotent(render: Render, items: seq<Item>)
    ensures SafeItems(render, SafeItems(render, items)) == SafeItems(render, items)
  {
    if items != [] {
      SafeIsIdempotent(render, items[0].value);
      SafeItemsIdempotent(render, items[1..]);
      assert SafeItems(render, items)[1..] == SafeItems(render, items[1..]);
    }
  }

  lemma {:induction false} SafeRowsIdempotent(render: Render, rows: seq<Value>)
    ensures SafeRows(render, SafeRows(render, rows)) == SafeRows(render, rows)
  {
    if rows != [] {
      SafeIsIdempotent(render, rows[0]);
      SafeRowsIdempotent(render, rows[1..]);
      assert SafeRows(render, rows)[1..] == SafeRows(render, rows[1..]);
    }
  }

  /** Conversion neither adds nor removes a row, nor a table. */
  lemma {:induction false} SafeKeepsRows(render: Render, v: Value)
    ensures Total(Safe(render, v)) == Total(v) && HasTable(Safe(render, v)) == HasTable(v)
  {
    match v
    case Dict(items) => SafeItemsKeepRows(render, items);
    case Table(rows) => SafeRowsKeepRows(render, rows);
    case Special(_, _) =>
    case Text(_) =>
    case Plain(_) =>
  }

  lemma {:induction false} SafeItemsKeepRows(render: Render, items: seq<Item>)
    ensures var safe := SafeItems(render, items);
            |safe| == |items| && TotalOfItems(safe) == TotalOfItems(items) &&
              ItemsHaveTable(safe) == ItemsHaveTable(items)
  {
    if items != [] {
      SafeKeepsRows(render, items[0].value);
      SafeItemsKeepRows(render, items[1..]);
      assert SafeItems(render, items)[1..] == SafeItems(render, items[1..]);
    }
  }

  lemma {:induction false} SafeRowsKeepRows(render: Render, rows: seq<Value>)
    ensures |SafeRows(render, rows)| == |rows| && TotalOfRows(SafeRows(render, rows)) == TotalOfRows(rows)
  {
    if rows != [] {
      SafeKeepsRows(render, rows[0]);
      SafeRowsKeepRows(render, rows[1..]);
      assert SafeRows(render, rows)[1..] == SafeRows(render, rows[1..]);
    }
  }

  // ---- the conversion with a shared counter ----

  lemma {:induction false} ItemsSnoc(render: Render, items: seq<Item>, x: Item)
    ensures SafeItems(render, items + [x]) == SafeItems(render, items) + [Item(x.key, Safe(render, x.value))]
    ensures TotalOfItems(items + [x]) == TotalOfItems(items) + Total(x.value)
    ensures ItemsHaveTable(items + [x]) == (ItemsHaveTable(items) || HasTable(x.value))
  {
    if items == [] {
      assert [x][1..] == [];
    } else {
      assert (items + [x])[1..] == items[1..] + [x];
      ItemsSnoc(render, items[1..], x);
    }
  }

  lemma {:induction false} RowsSnoc(render: Render, rows: seq<Value>, x: Value)
    ensures SafeRows(render, rows + [x]) == SafeRows(render, rows) + [Safe(render, x)]
    ensures TotalOfRows(rows + [x]) == TotalOfRows(rows) + Total(x)
  {
    if rows == [] {
      assert [x][1..] == [];
    } else {
      assert (rows + [x])[1..] == rows[1..] + [x];
      RowsSnoc(render, rows[1..], x);
    }
  }

  lemma {:induction false} ItemsSplit(a: seq<Item>, b: seq<Item>)
    ensures TotalOfItems(a + b) == TotalOfItems(a) + TotalOfItems(b)
    ensures ItemsHaveTable(a + b) == (ItemsHaveTable(a) || ItemsHaveTable(b))
  {
    if a == [] {
      assert a + b == b;
    } else {
      assert (a + b)[1..] == a[1..] + b;
      ItemsSplit(a[1..], b);
    }
  }

  lemma {:induction false} RowsSplit(a: seq<Value>, b: seq<Value>)
    ensures TotalOfRows(a + b) == TotalOfRows(a) + TotalOfRows(b)
  {
    if a == [] {
      assert a + b == b;
    } else {
      assert (a + b)[1..] == a[1..] + b;
      RowsSplit(a[1..], b);
    }
  }

  /** The counter, starting at `before`, passes `max` somewhere in `v`. */
  predicate Exceeds(v: Value, before: int, max: int) { HasTable(v) && before + Total(v) > max }

  /** `_to_json_safe` with limits: it fails early, but exactly when the total over the whole
      value is too large; otherwise nothing is cut off and the counter has moved by exactly
      that total. */
  method Convert(render: Render, v: Value, counter: array<int>, max: int) returns (r: Result<Value, int>)
    requires counter.Length == 1
    modifies counter
    ensures r.Err? <==> Exceeds(v, old(counter[0]), max)
    ensures r.Err? ==> max < r.error <= old(counter[0]) + Total(v)
    ensures r.Ok? ==> r.value == Safe(render, v) && counter[0] == old(counter[0]) + Total(v)
    ensures r.Ok? ==> Renders(render, v, r.value)
    decreases v
  {
    SafeRenders(render, v);
    match v
    case Dict(items) =>
      r := ConvertItems(render, items, counter, max);
    case Table(rows) =>
      counter[0] := counter[0] + |rows|;
      if counter[0] > max {
        return Err(counter[0]);
      }
      r := ConvertRows(render, rows, counter, max);
    case Special(kind, raw) =>
      r := Ok(Text(render(kind, raw)));
    case Text(_) =>
      r := Ok(v);
    case Plain(_) =>
      r := Ok(v);
  }

  /** The dict comprehension. */
  method ConvertItems(render: Render, items: seq<Item>, counter: array<int>, max: int) returns (r: Result<Value, int>)
    requires counter.Length == 1
    modifies counter
    ensures r.Err? <==> ItemsHaveTable(items) && old(counter[0]) + TotalOfItems(items) > max
    ensures r.Err? ==> max < r.error <= old(counter[0]) + TotalOfItems(items)
    ensures r.Ok? ==> r.value == Dict(SafeItems(render, items)) && counter[0] == old(counter[0]) + TotalOfItems(items)
    decreases items
  {
    var done: seq<Item> := [];
    for i := 0 to |items|
      invariant done == SafeItems(render, items[..i]) && counter[0] == old(counter[0]) + TotalOfItems(items[..i])
      invariant ItemsHaveTable(items[..i]) ==> counter[0] <= max
    {
      assert items[..i + 1] == items[..i] + [items[i]];
      ItemsSnoc(render, items[..i], items[i]);
      var x := Convert(render, items[i].value, counter, max);
      if x.Err? {
        assert items == items[..i + 1] + items[i + 1..];
        ItemsSplit(items[..i + 1], items[i + 1..]);
        return Err(x.error);
      }
      done := done + [Item(items[i].key, x.value)];
      if !HasTable(items[i].value) { NoTableNoRows(items[i].value); }
    }
    assert items[..|items|] == items;
    r := Ok(Dict(done));
  }

  /** The list comprehension; the table itself is already counted. */
  method ConvertRows(render: Render, rows: seq<Value>, counter: array<int>, max: int) returns (r: Result<Value, int>)
    requires counter.Length == 1 && counter[0] <= max
    modifies counter
    ensures r.Err? <==> old(counter[0]) + TotalOfRows(rows) > max
    ensures r.Err? ==> max < r.error <= old(counter[0]) + TotalOfRows(rows)
    ensures r.Ok? ==> r.value == Table(SafeRows(render, rows)) && counter[0] == old(counter[0]) + TotalOfRows(rows)
    decreases rows
  {
    var done: seq<Value> := [];
    for i := 0 to |rows|
      invariant done == SafeRows(render, rows[..i]) && counter[0] == old(counter[0]) + TotalOfRows(rows[..i])
      invariant counter[0] <= max
    {
      assert rows[..i + 1] == rows[..i] + [rows[i]];
      RowsSnoc(render, rows[..i], rows[i]);
      var x := Convert(render, rows[i], counter, max);
      if x.Err? {
        assert rows == rows[..i + 1] + rows[i + 1..];
        RowsSplit(rows[..i + 1], rows[i + 1..]);
        return Err(x.error);
      }
      done := done + [x.value];
      if !HasTable(rows[i]) { NoTableNoRows(rows[i]); }
    }
    assert rows[..|rows|] == rows;
    r := Ok(Table(done));
  }

  // ---- ResultLimitPolicy.apply ----

  datatype LimitError = TooManyRows(actual: int) | TooManyBytes(actual: int) | NotSerializable

  /** json.dumps followed by UTF-8: the length in bytes, or nothing when it raises. */
  type Encode = Value -> Option<nat>

  /** The limits let the value through. */
  predicate Within(render: Render, encode: Encode, v: Value, maxRows: int, maxBytes: int) {
    !Exceeds(v, 0, maxRows) && encode(Safe(render, v)).Some? && encode(Safe(render, v)).value <= maxBytes
  }

  /** The whole converted value, or an error: never a part of it. */
  method Apply(render: Render, encode: Encode, v: Value, maxRows: int, maxBytes: int)
    returns (r: Result<Value, LimitError>)
    ensures r.Ok? <==> Within(render, encode, v, maxRows, maxBytes)
    ensures r.Ok? ==> Renders(render, v, r.value)
    ensures r.Err? && r.error.TooManyRows? <==> Exceeds(v, 0, maxRows)
    ensures r.Err? && r.error.TooManyRows? ==> maxRows < r.error.actual <= Total(v)
    ensures r.Err? && r.error.NotSerializable? <==> !Exceeds(v, 0, maxRows) && encode(Safe(render, v)).None?
    ensures r.Err? && r.error.TooManyBytes? ==>
              encode(Safe(render, v)) == Some(r.error.actual) && r.error.actual > maxBytes
  {
    var counter := new int[1](_ => 0);
    var x := Convert(render, v, counter, maxRows);
    if x.Err? {
      return Err(TooManyRows(x.error));
    }
    match encode(x.value)
    case None =>
      return Err(NotSerializable);
    case Some(bytes) =>
      if bytes > maxBytes {
        return Err(TooManyBytes(bytes));
      }
      return Ok(x.value);
  }

  /** "Too many rows" means that the total exceeds the limit, except for a value without any
      table under a negative limit, which passes. */
  lemma RowLimitIsExact(v: Value, maxRows: int)
    ensures (Exceeds(v, 0, maxRows) <==> Total(v) > maxRows) <==> (HasTable(v) || maxRows >= 0)
  {
    if !HasTable(v) { NoTableNoRows(v); }
  }

  /** A text passes a limit of minus one row, although its total of no rows exceeds that. */
  lemma NegativeLimitPasses()
    ensures !Exceeds(Text("done"), 0, -1) && Total(Text("done")) > -1
  {
    RowLimitIsExact(Text("done"), -1);
  }

  /** Without limits nothing but the form changes: a value passes the limits if and only if
      its converted form does. */
  lemma LimitsCommuteWithConversion(render: Render, encode: Encode, v: Value, maxRows: int, maxBytes: int)
    ensures Within(render, encode, Safe(render, v), maxRows, maxBytes) == Within(render, encode, v, maxRows, maxBytes)
  {
    SafeIsIdempotent(render, v);
    SafeKeepsRows(render, v);
  }
}
