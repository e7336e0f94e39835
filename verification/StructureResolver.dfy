/** Flattening of a structure definition: the recursion over the data dictionary, its depth
    cap and its seen-set. */
module StructureResolver {
  import opened Common

  /** What the resolver copies from a row besides the name. */
  type Attributes = map<string, string>

  datatype Row = Row(fieldName: string, attributes: Attributes, tabName: string)

  datatype FieldInfo = FieldInfo(name: string, attributes: Attributes)

  /** The data dictionary: `define` is RFC_GET_STRUCTURE_DEFINITION, an error when the call
      raises. `strip` and `upper` are the string functions. */
  datatype Dictionary = Dictionary(
    strip: string -> string, upper: string -> string, define: string -> Result<seq<Row>, int>)

  type Fields = Result<seq<FieldInfo>, int>

  function Key(d: Dictionary, name: string): string { d.upper(d.strip(name)) }

  predicate Blank(d: Dictionary, row: Row) { d.strip(row.fieldName) == "" }

  function Field(d: Dictionary, row: Row): FieldInfo { FieldInfo(d.strip(row.fieldName), row.attributes) }

  function Nested(d: Dictionary, row: Row): string { d.strip(row.tabName) }

  /** The row refers to a structure other than the one it is in. */
  predicate Refers(d: Dictionary, row: Row, key: string) {
    Nested(d, row) != "" && d.upper(Nested(d, row)) != key
  }

  function Then(a: Fields, b: Fields): Fields {
    if a.Err? then a else if b.Err? then b else Ok(a.value + b.value)
  }

  /** `_resolve`. */
  function Resolve(d: Dictionary, name: string, depth: int, seen: set<string>): Fields
    decreases depth, 1, 0
  {
    var key := Key(d, name);
    if key == "" || key in seen || depth <= 0 then Ok([])
    else match d.define(name)
      case Err(e) => Err(e)
      case Ok(rows) => Expand(d, key, rows, depth, seen + {key})
  }

  /** The loop of `_resolve` over the rows of the structure `key`. */
  function Expand(d: Dictionary, key: string, rows: seq<Row>, depth: int, seen: set<string>): Fields
    requires depth > 0
    decreases depth, 0, |rows|
  {
    if rows == [] then Ok([])
    else Then(ExpandRow(d, key, rows[0], depth, seen), Expand(d, key, rows[1..], depth, seen))
  }

  function ExpandRow(d: Dictionary, key: string, row: Row, depth: int, seen: set<string>): Fields
    requires depth > 0
    decreases depth, 0, 0
  {
    if Blank(d, row) then Ok([])
    else Then(Ok([Field(d, row)]), if Refers(d, row, key) then Resolve(d, Nested(d, row), depth - 1, seen) else Ok([]))
  }

  // ---- the lookups that are made ----

  /** The names looked up, in order, up to the first lookup that fails. */
  function Lookups(d: Dictionary, name: string, depth: int, seen: set<string>): seq<string>
    decreases depth, 1, 0
  {
    var key := Key(d, name);
    if key == "" || key in seen || depth <= 0 then []
    else [name] + match d.define(name)
      case Err(_) => []
      case Ok(rows) => RowLookups(d, key, rows, depth, seen + {key})
  }

  function RowLookups(d: Dictionary, key: string, rows: seq<Row>, depth: int, seen: set<string>): seq<string>
    requires depth > 0
    decreases depth, 0, |rows|
  {
    if rows == [] then []
    else
      var first := LookupsOf(d, key, rows[0], depth, seen);
      if ExpandRow(d, key, rows[0], depth, seen).Err? then first
      else first + RowLookups(d, key, rows[1..], depth, seen)
  }

  function LookupsOf(d: Dictionary, key: string, row: Row, depth: int, seen: set<string>): seq<string>
    requires depth > 0
    decreases depth, 0, 0
  {
    if Blank(d, row) || !Refers(d, row, key) then [] else Lookups(d, Nested(d, row), depth - 1, seen)
  }

  // ---- the code ----

  /** RfcCaller, with a record of what it was asked. */
  class Caller {
    const dictionary: Dictionary
    var asked: seq<string>

    constructor (dictionary: Dictionary)
      ensures this.dictionary == dictionary && asked == []
    {
      this.dictionary, asked := dictionary, [];
    }

    method Call(name: string) returns (r: Result<seq<Row>, int>)
      modifies this
      ensures r == dictionary.define(name) && asked == old(asked) + [name]
    {
      asked := asked + [name];
      r := dictionary.define(name);
    }
  }

  lemma ThenAssociates(a: Fields, b: Fields, c: Fields)
    ensures Then(Then(a, b), c) == Then(a, Then(b, c))
  {
    if a.Ok? && b.Ok? && c.Ok? { assert a.value + b.value + c.value == a.value + (b.value + c.value); }
  }

  lemma {:induction false} ExpandSnoc(d: Dictionary, key: string, rows: seq<Row>, row: Row, depth: int,
      seen: set<string>)
    requires depth > 0
    ensures Expand(d, key, rows + [row], depth, seen) ==
            Then(Expand(d, key, rows, depth, seen), ExpandRow(d, key, row, depth, seen))
  {
    if rows == [] {
      assert [row][1..] == [];
      var r := ExpandRow(d, key, row, depth, seen);
      if r.Ok? { assert r.value + [] == r.value && [] + r.value == r.value; }
    } else {
      assert (rows + [row])[1..] == rows[1..] + [row];
      ExpandSnoc(d, key, rows[1..], row, depth, seen);
      ThenAssociates(ExpandRow(d, key, rows[0], depth, seen), Expand(d, key, rows[1..], depth, seen),
        ExpandRow(d, key, row, depth, seen));
    }
  }

  lemma {:induction false} RowLookupsSnoc(d: Dictionary, key: string, rows: seq<Row>, row: Row, depth: int,
      seen: set<string>)
    requires depth > 0 && Expand(d, key, rows, depth, seen).Ok?
    ensures RowLookups(d, key, rows + [row], depth, seen) == RowLookups(d, key, rows, depth, seen) +
            LookupsOf(d, key, row, depth, seen)
  {
    if rows == [] {
      assert [row][1..] == [];
    } else {
      assert (rows + [row])[1..] == rows[1..] + [row];
      RowLookupsSnoc(d, key, rows[1..], row, depth, seen);
    }
  }

  /** A failed row ends the loop: the rest of the rows changes nothing. */
  lemma {:induction false} FailedRowEnds(d: Dictionary, key: string, rows: seq<Row>, more: seq<Row>, depth: int,
      seen: set<string>)
    requires depth > 0 && Expand(d, key, rows, depth, seen).Err?
    ensures Expand(d, key, rows + more, depth, seen) == Expand(d, key, rows, depth, seen)
    ensures RowLookups(d, key, rows + more, depth, seen) == RowLookups(d, key, rows, depth, seen)
  {
    assert rows != [];
    assert (rows + more)[1..] == rows[1..] + more;
    if ExpandRow(d, key, rows[0], depth, seen).Ok? {
      FailedRowEnds(d, key, rows[1..], more, depth, seen);
    }
  }

  /** One more row has been expanded into `more`. */
  lemma RowDone(d: Dictionary, key: string, rows: seq<Row>, i: nat, depth: int, seen: set<string>,
      fields: seq<FieldInfo>, more: seq<FieldInfo>)
    requires depth > 0 && i < |rows| && Expand(d, key, rows[..i], depth, seen) == Ok(fields)
    requires ExpandRow(d, key, rows[i], depth, seen) == Ok(more)
    ensures Expand(d, key, rows[..i + 1], depth, seen) == Ok(fields + more)
    ensures RowLookups(d, key, rows[..i + 1], depth, seen) ==
            RowLookups(d, key, rows[..i], depth, seen) + LookupsOf(d, key, rows[i], depth, seen)
  {
    assert rows[..i + 1] == rows[..i] + [rows[i]];
    ExpandSnoc(d, key, rows[..i], rows[i], depth, seen);
    RowLookupsSnoc(d, key, rows[..i], rows[i], depth, seen);
  }

  /** The row at `i` failed, and with it the whole structure. */
  lemma RowFailed(d: Dictionary, key: string, rows: seq<Row>, i: nat, depth: int, seen: set<string>, error: int)
    requires depth > 0 && i < |rows| && Expand(d, key, rows[..i], depth, seen).Ok?
    requires ExpandRow(d, key, rows[i], depth, seen) == Err(error)
    ensures Expand(d, key, rows, depth, seen) == Err(error)
    ensures RowLookups(d, key, rows, depth, seen) ==
            RowLookups(d, key, rows[..i], depth, seen) + LookupsOf(d, key, rows[i], depth, seen)
  {
    assert rows[..i + 1] == rows[..i] + [rows[i]];
    ExpandSnoc(d, key, rows[..i], rows[i], depth, seen);
    RowLookupsSnoc(d, key, rows[..i], rows[i], depth, seen);
    FailedRowEnds(d, key, rows[..i + 1], rows[i + 1..], depth, seen);
    assert rows[..i + 1] + rows[i + 1..] == rows;
  }

  /** The body of the loop in `_resolve`. */
  method ResolveRow(caller: Caller, key: string, row: Row, depth: int, seen: set<string>) returns (r: Fields)
    requires depth > 0
    modifies caller
    ensures r == ExpandRow(caller.dictionary, key, row, depth, seen)
    ensures caller.asked == old(caller.asked) + LookupsOf(caller.dictionary, key, row, depth, seen)
    decreases depth, 0
  {
    var d := caller.dictionary;
    if Blank(d, row) {
      return Ok([]);
    }
    var fields := [Field(d, row)];
    if Refers(d, row, key) {
      var nested := ResolveLoop(caller, Nested(d, row), depth - 1, seen);
      if nested.Err? {
        return nested;
      }
      fields := fields + nested.value;
    } else {
      assert fields + [] == fields;
    }
    return Ok(fields);
  }

  predicate Cut(d: Dictionary, name: string, depth: int, seen: set<string>) {
    Key(d, name) == "" || Key(d, name) in seen || depth <= 0
  }

  lemma CutShort(d: Dictionary, name: string, depth: int, seen: set<string>)
    requires Cut(d, name, depth, seen)
    ensures Resolve(d, name, depth, seen) == Ok([]) && Lookups(d, name, depth, seen) == []
  {}

  lemma LookedUp(d: Dictionary, name: string, depth: int, seen: set<string>, rows: seq<Row>)
    requires !Cut(d, name, depth, seen) && d.define(name) == Ok(rows)
    ensures Resolve(d, name, depth, seen) == Expand(d, Key(d, name), rows, depth, seen + {Key(d, name)})
    ensures Lookups(d, name, depth, seen) == [name] + RowLookups(d, Key(d, name), rows, depth, seen + {Key(d, name)})
    ensures Expand(d, Key(d, name), rows[..0], depth, seen + {Key(d, name)}) == Ok([])
    ensures RowLookups(d, Key(d, name), rows[..0], depth, seen + {Key(d, name)}) == []
  {}

  lemma LookupFails(d: Dictionary, name: string, depth: int, seen: set<string>, error: int)
    requires !Cut(d, name, depth, seen) && d.define(name) == Err(error)
    ensures Resolve(d, name, depth, seen) == Err(error) && Lookups(d, name, depth, seen) == [name]
  {}

  /** `_resolve`: the fields, and exactly the lookups that were made, in order. */
  method ResolveLoop(caller: Caller, name: string, depth: int, seen: set<string>) returns (r: Fields)
    modifies caller
    ensures r == Resolve(caller.dictionary, name, depth, seen)
    ensures caller.asked == old(caller.asked) + Lookups(caller.dictionary, name, depth, seen)
    decreases depth, 1
  {
    hide Resolve, Lookups, Expand, RowLookups, ExpandRow, LookupsOf;
    var d := caller.dictionary;
    var key := d.upper(d.strip(name));
    if key == "" || key in seen || depth <= 0 {
      CutShort(d, name, depth, seen);
      return Ok([]);
    }
    var inner := seen + {key};
    var answer := caller.Call(name);
    if answer.Err? {
      LookupFails(d, name, depth, seen, answer.error);
      return Err(answer.error);
    }
    var rows := answer.value;
    LookedUp(d, name, depth, seen, rows);
    var fields: seq<FieldInfo> := [];
    ghost var base := caller.asked;
    for i := 0 to |rows|
      invariant Expand(d, key, rows[..i], depth, inner) == Ok(fields)
      invariant caller.asked == base + RowLookups(d, key, rows[..i], depth, inner)
    {
      var more := ResolveRow(caller, key, rows[i], depth, inner);
      if more.Err? {
        RowFailed(d, key, rows, i, depth, inner, more.error);
        assert caller.asked == old(caller.asked) + ([name] + RowLookups(d, key, rows, depth, inner));
        return more;
      }
      RowDone(d, key, rows, i, depth, inner, fields, more.value);
      fields := fields + more.value;
    }
    assert rows[..|rows|] == rows;
    assert caller.asked == old(caller.asked) + ([name] + RowLookups(d, key, rows, depth, inner));
    return Ok(fields);
  }

  /** `resolve_structure_fields`. */
  method ResolveStructureFields(caller: Caller, name: string, maxDepth: int) returns (r: Fields)
    modifies caller
    ensures r == if name == "" then Ok([]) else Resolve(caller.dictionary, name, maxDepth, {})
  {
    if name == "" {
      return Ok([]);
    }
    r := ResolveLoop(caller, name, maxDepth, {});
  }
}
