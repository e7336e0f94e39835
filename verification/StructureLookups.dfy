/** Which lookups a resolution makes: one for each structure that it meets anew on the way,
    in the order in which it meets them. */
module StructureLookups {
  import opened Common
  import opened StructureResolver
  import opened StructurePaths

  /** Every row along the path is named and refers to a structure. */
  predicate Leads(d: Dictionary, name: string, p: Path)
    decreases |p|
  {
    p != [] ==>
      && d.define(name).Ok? && p[0] < |d.define(name).value|
      && var row := d.define(name).value[p[0]];
         d.strip(row.fieldName) != "" && d.strip(row.tabName) != "" && Leads(d, d.strip(row.tabName), p[1..])
  }

  /** The structure that the path leads to. */
  function StructureAt(d: Dictionary, name: string, p: Path): string
    requires Leads(d, name, p)
    decreases |p|
  {
    if p == [] then name else StructureAt(d, d.strip(d.define(name).value[p[0]].tabName), p[1..])
  }

  /** The structures from the first one to the one that the path leads to. */
  function KeysTo(d: Dictionary, name: string, p: Path): seq<string>
    requires Leads(d, name, p)
    decreases |p|
  {
    [d.upper(d.strip(name))] +
    if p == [] then [] else KeysTo(d, d.strip(d.define(name).value[p[0]].tabName), p[1..])
  }

  /** The path leads to a structure within the cap, and meets only named, new and different ones. */
  ghost predicate Opens(d: Dictionary, name: string, p: Path, depth: int, seen: set<string>) {
    |p| < depth && Leads(d, name, p) && New(KeysTo(d, name, p), seen)
  }

  /** The paths to the structures that are looked up, as the recursion meets them. */
  function Opened(d: Dictionary, name: string, depth: int, seen: set<string>): seq<Path>
    decreases depth, 1, 0
  {
    var key := Key(d, name);
    if key == "" || key in seen || depth <= 0 then []
    else [[]] + match d.define(name)
      case Err(_) => []
      case Ok(rows) => OpenedFrom(d, key, rows, 0, depth, seen + {key})
  }

  function OpenedFrom(d: Dictionary, key: string, rows: seq<Row>, i: nat, depth: int, seen: set<string>): seq<Path>
    requires depth > 0 && i <= |rows|
    decreases depth, 0, |rows| - i
  {
    if i == |rows| then []
    else
      (if Blank(d, rows[i]) || !Refers(d, rows[i], key) then []
       else Under(i, Opened(d, Nested(d, rows[i]), depth - 1, seen)))
      + OpenedFrom(d, key, rows, i + 1, depth, seen)
  }

  // ---- they are the paths that open a structure ----

  lemma {:induction false} InOpenedFrom(d: Dictionary, key: string, rows: seq<Row>, i: nat, depth: int,
      seen: set<string>, p: Path)
    requires depth > 0 && i <= |rows|
    ensures p in OpenedFrom(d, key, rows, i, depth, seen) <==>
            && p != [] && i <= p[0] < |rows| && !Blank(d, rows[p[0]]) && Refers(d, rows[p[0]], key)
            && p[1..] in Opened(d, Nested(d, rows[p[0]]), depth - 1, seen)
    decreases |rows| - i
  {
    hide Opened, Under, Resolve;
    if i < |rows| {
      InOpenedFrom(d, key, rows, i + 1, depth, seen, p);
      InUnder(i, Opened(d, Nested(d, rows[i]), depth - 1, seen), p);
    }
  }

  lemma FirstKey(d: Dictionary, name: string, p: Path)
    requires Leads(d, name, p)
    ensures KeysTo(d, name, p)[0] == Key(d, name)
  {}

  lemma OpensStep(d: Dictionary, name: string, p: Path, depth: int, seen: set<string>)
    requires p != [] && d.define(name).Ok? && p[0] < |d.define(name).value|
    ensures var row, key := d.define(name).value[p[0]], Key(d, name);
            Opens(d, name, p, depth, seen) <==>
              && key != "" && key !in seen && !Blank(d, row) && Nested(d, row) != ""
              && Opens(d, Nested(d, row), p[1..], depth - 1, seen + {key})
  {
    var row := d.define(name).value[p[0]];
    if Leads(d, name, p) {
      NewStep(Key(d, name), KeysTo(d, Nested(d, row), p[1..]), seen);
    }
    hide New;
  }

  lemma {:induction false} OpenedOpen(d: Dictionary, name: string, depth: int, seen: set<string>, p: Path)
    requires StripIsStable(d)
    ensures p in Opened(d, name, depth, seen) <==> Opens(d, name, p, depth, seen)
    decreases |p|
  {
    var key := Key(d, name);
    if p == [] {
      NewStep(key, [], seen);
      assert KeysTo(d, name, p) == [key] + [];
    } else if d.define(name).Ok? && p[0] < |d.define(name).value| {
      var rows := d.define(name).value;
      var nested := Nested(d, rows[p[0]]);
      OpensStep(d, name, p, depth, seen);
      OpenedOpen(d, nested, depth - 1, seen + {key}, p[1..]);
      NestedKey(d, rows[p[0]]);
      if depth > 0 { InOpenedFrom(d, key, rows, 0, depth, seen + {key}, p); }
      if Leads(d, nested, p[1..]) { FirstKey(d, nested, p[1..]); }
    } else if d.define(name).Ok? && depth > 0 {
      InOpenedFrom(d, key, d.define(name).value, 0, depth, seen + {key}, p);
    }
  }

  // ---- in order ----

  lemma UnderInPreOrder(i: nat, ps: seq<Path>)
    requires InPreOrder(ps)
    ensures InPreOrder(Under(i, ps))
  {
    var under := Under(i, ps);
    forall j, k | 0 <= j < k < |under|
      ensures Before(under[j], under[k])
    {
      assert under[j][1..] == ps[j] && under[k][1..] == ps[k];
    }
  }

  lemma {:induction false} OpenedInPreOrder(d: Dictionary, name: string, depth: int, seen: set<string>)
    ensures InPreOrder(Opened(d, name, depth, seen))
    decreases depth, 1, 0
  {
    var key := Key(d, name);
    if !(key == "" || key in seen || depth <= 0) && d.define(name).Ok? {
      var rest := OpenedFrom(d, key, d.define(name).value, 0, depth, seen + {key});
      OpenedFromInPreOrder(d, key, d.define(name).value, 0, depth, seen + {key});
      forall k | 0 <= k < |rest|
        ensures Before([], rest[k])
      {
        InOpenedFrom(d, key, d.define(name).value, 0, depth, seen + {key}, rest[k]);
      }
    }
  }

  lemma {:induction false} OpenedFromInPreOrder(d: Dictionary, key: string, rows: seq<Row>, i: nat, depth: int,
      seen: set<string>)
    requires depth > 0 && i <= |rows|
    ensures InPreOrder(OpenedFrom(d, key, rows, i, depth, seen))
    decreases depth, 0, |rows| - i
  {
    if i < |rows| {
      var nested := Opened(d, Nested(d, rows[i]), depth - 1, seen);
      var first, rest := Under(i, nested), OpenedFrom(d, key, rows, i + 1, depth, seen);
      OpenedFromInPreOrder(d, key, rows, i + 1, depth, seen);
      OpenedInPreOrder(d, Nested(d, rows[i]), depth - 1, seen);
      UnderInPreOrder(i, nested);
      forall j, k | 0 <= j < |first| && 0 <= k < |rest|
        ensures Before(first[j], rest[k])
      {
        InOpenedFrom(d, key, rows, i + 1, depth, seen, rest[k]);
      }
    }
  }

  // ---- the names that are looked up are theirs ----

  ghost predicate Names(d: Dictionary, name: string, ps: seq<Path>, names: seq<string>) {
    |ps| == |names| && forall j | 0 <= j < |ps| :: Leads(d, name, ps[j]) && names[j] == StructureAt(d, name, ps[j])
  }

  lemma {:induction false} LookupsOfOpened(d: Dictionary, name: string, depth: int, seen: set<string>)
    requires Resolve(d, name, depth, seen).Ok?
    ensures Names(d, name, Opened(d, name, depth, seen), Lookups(d, name, depth, seen))
    decreases depth, 1, 0
  {
    var key := Key(d, name);
    if !(key == "" || key in seen || depth <= 0) {
      var rows := d.define(name).value;
      assert rows[0..] == rows;
      LookupsFrom(d, name, rows, 0, depth, seen + {key});
    }
  }

  lemma {:induction false} LookupsFrom(d: Dictionary, name: string, rows: seq<Row>, i: nat, depth: int,
      seen: set<string>)
    requires depth > 0 && d.define(name) == Ok(rows) && i <= |rows|
    requires Expand(d, Key(d, name), rows[i..], depth, seen).Ok?
    ensures Names(d, name, OpenedFrom(d, Key(d, name), rows, i, depth, seen),
                  RowLookups(d, Key(d, name), rows[i..], depth, seen))
    decreases depth, 0, |rows| - i
  {
    if i < |rows| {
      var key, row := Key(d, name), rows[i];
      assert rows[i..][1..] == rows[i + 1..];
      LookupsFrom(d, name, rows, i + 1, depth, seen);
      if !Blank(d, row) && Refers(d, row, key) {
        LookupsOfOpened(d, Nested(d, row), depth - 1, seen);
        NamesUnder(d, name, rows, i, Opened(d, Nested(d, row), depth - 1, seen),
                   Lookups(d, Nested(d, row), depth - 1, seen));
      }
    }
  }

  lemma NamesUnder(d: Dictionary, name: string, rows: seq<Row>, i: nat, ps: seq<Path>, names: seq<string>)
    requires d.define(name) == Ok(rows) && i < |rows| && !Blank(d, rows[i]) && Nested(d, rows[i]) != ""
    requires Names(d, Nested(d, rows[i]), ps, names)
    ensures Names(d, name, Under(i, ps), names)
  {
    forall j | 0 <= j < |ps|
      ensures Leads(d, name, Under(i, ps)[j]) && StructureAt(d, name, Under(i, ps)[j]) == names[j]
    {
      assert ([i] + ps[j])[1..] == ps[j];
    }
  }

  /** A successful resolution makes exactly one lookup for each path that leads, within the depth
      cap, to a named structure through different ones not seen before; the lookups are made in
      pre-order, each under the name that the path leads to. */
  lemma LookupsAreTheNewStructures(d: Dictionary, name: string, depth: int, seen: set<string>)
    requires StripIsStable(d) && Resolve(d, name, depth, seen).Ok?
    ensures exists ps: seq<Path> ::
              && InPreOrder(ps)
              && (forall p: Path :: p in ps <==> Opens(d, name, p, depth, seen))
              && Names(d, name, ps, Lookups(d, name, depth, seen))
  {
    var ps := Opened(d, name, depth, seen);
    OpenedInPreOrder(d, name, depth, seen);
    forall p: Path
      ensures p in ps <==> Opens(d, name, p, depth, seen)
    {
      OpenedOpen(d, name, depth, seen, p);
    }
    LookupsOfOpened(d, name, depth, seen);
  }
}
