/** Function interfaces: how they are built from the repository's rows, and what the cache in
    front of them gives to callers who spell a name differently. */
module InterfaceCatalogs {
  import opened Common
  import opened FunctionCatalogs
  import opened StructureResolver
  import opened TTLCaches
  import ParamMapper

  // ---- one interface ----

  datatype ParamRow = ParamRow(
    name: string, class_: string, tabName: string, default: string, optional: string, attributes: Attributes)

  datatype ExceptionRow = ExceptionRow(name: string, text: string)

  /** What RFC_GET_FUNCTION_INTERFACE returns. */
  datatype Definition = Definition(params: seq<ParamRow>, exceptions: seq<ExceptionRow>)

  datatype ParameterInfo = ParameterInfo(
    parameter: ParamMapper.Parameter, attributes: Attributes, structureName: Option<string>, fields: seq<FieldInfo>)

  datatype ExceptionInfo = ExceptionInfo(name: string, description: string)

  /** Everything but the name, which is as the caller wrote it. */
  datatype Body = Body(parameters: seq<ParameterInfo>, exceptions: seq<ExceptionInfo>)

  datatype Interface = Interface(name: string, body: Body)

  /** `paramclass_from_code`. */
  function ClassOf(d: Dictionary, code: string): Option<ParamMapper.ParamClass> {
    var c := d.upper(d.strip(code));
    if c == "I" then Some(ParamMapper.Import)
    else if c == "E" then Some(ParamMapper.Export)
    else if c == "T" then Some(ParamMapper.Tables)
    else if c == "C" then Some(ParamMapper.Changing)
    else None
  }

  /** A row without a name, or of an unknown class, is passed over. */
  function IsParameter(d: Dictionary): ParamRow -> bool {
    (row: ParamRow) => d.strip(row.name) != "" && ClassOf(d, row.class_).Some?
  }

  function FieldsOf(d: Dictionary, row: ParamRow, maxDepth: int): Fields {
    if d.strip(row.tabName) == "" then Ok([]) else Resolve(d, d.strip(row.tabName), maxDepth, {})
  }

  function IsOptional(d: Dictionary, row: ParamRow): bool { d.upper(d.strip(row.optional)) in ["X", "TRUE", "1"] }

  /** The parameter of a row whose structure, if it has one, was resolved. */
  function Described(d: Dictionary, maxDepth: int): ParamRow -> ParameterInfo {
    (row: ParamRow) =>
      var class_ := ClassOf(d, row.class_);
      var fields := FieldsOf(d, row, maxDepth);
      ParameterInfo(
        ParamMapper.Parameter(d.strip(row.name), if class_.Some? then class_.value else ParamMapper.Import,
                              IsOptional(d, row), d.strip(row.default)),
        row.attributes,
        if d.strip(row.tabName) == "" then None else Some(d.strip(row.tabName)),
        if fields.Ok? then fields.value else [])
  }

  function Parameters(d: Dictionary, rows: seq<ParamRow>, maxDepth: int): Result<seq<ParameterInfo>, int> {
    if rows == [] then Ok([])
    else
      var before, row := Parameters(d, rows[..|rows| - 1], maxDepth), rows[|rows| - 1];
      if before.Err? || !IsParameter(d)(row) then before
      else match FieldsOf(d, row, maxDepth)
        case Err(e) => Err(e)
        case Ok(_) => Ok(before.value + [Described(d, maxDepth)(row)])
  }

  function IsException(d: Dictionary): ExceptionRow -> bool { (row: ExceptionRow) => d.strip(row.name) != "" }

  function Raised(d: Dictionary): ExceptionRow -> ExceptionInfo {
    (row: ExceptionRow) => ExceptionInfo(d.strip(row.name), d.strip(row.text))
  }

  function Exceptions(d: Dictionary, rows: seq<ExceptionRow>): seq<ExceptionInfo> {
    if rows == [] then []
    else
      var row := rows[|rows| - 1];
      Exceptions(d, rows[..|rows| - 1]) + if IsException(d)(row) then [Raised(d)(row)] else []
  }

  /** An interface has exactly the named parameters of a known class, in order, each with the
      fields of its structure; it fails exactly if one of these structures cannot be resolved. */
  lemma {:induction false} ParametersPick(d: Dictionary, rows: seq<ParamRow>, maxDepth: int) returns (at: seq<nat>)
    ensures Parameters(d, rows, maxDepth).Err? <==>
            exists i :: 0 <= i < |rows| && IsParameter(d)(rows[i]) && FieldsOf(d, rows[i], maxDepth).Err?
    ensures Parameters(d, rows, maxDepth).Ok? ==>
            Picks(rows, Parameters(d, rows, maxDepth).value, at, IsParameter(d), Described(d, maxDepth))
  {
    if rows == [] {
      at := [];
    } else {
      var before, row := rows[..|rows| - 1], rows[|rows| - 1];
      at := ParametersPick(d, before, maxDepth);
      assert before + [row] == rows;
      assert forall i | 0 <= i < |before| :: before[i] == rows[i];
      var done := Parameters(d, before, maxDepth);
      if done.Ok? {
        PicksSnoc(before, row, done.value, at, IsParameter(d), Described(d, maxDepth));
        if IsParameter(d)(row) { at := at + [|before|]; }
      }
    }
  }

  /** The code of the row is `code`, whatever its case and the blanks around it. */
  predicate HasCode(d: Dictionary, row: ParamRow, code: string) { d.upper(d.strip(row.class_)) == code }

  /** The parameter says about the row what the interface reports. */
  ghost predicate ReportsParameter(d: Dictionary, maxDepth: int, row: ParamRow, p: ParameterInfo) {
    && p.parameter.name == d.strip(row.name) && p.parameter.default == d.strip(row.default)
    && (p.parameter.class_.Import? <==> HasCode(d, row, "I"))
    && (p.parameter.class_.Export? <==> HasCode(d, row, "E"))
    && (p.parameter.class_.Tables? <==> HasCode(d, row, "T"))
    && (p.parameter.class_.Changing? <==> HasCode(d, row, "C"))
    && (p.parameter.optional <==> d.upper(d.strip(row.optional)) in {"X", "TRUE", "1"})
    && p.attributes == row.attributes
    && (p.structureName == None <==> d.strip(row.tabName) == "")
    && (p.structureName == None ==> p.fields == [])
    && (p.structureName.Some? ==>
          p.structureName.value == d.strip(row.tabName)
          && Resolve(d, p.structureName.value, maxDepth, {}) == Ok(p.fields))
  }

  /** `ps` are of the rows at `at`: those with a name and one of the codes I, E, T and C. */
  ghost predicate ReportsParameters(d: Dictionary, maxDepth: int, rows: seq<ParamRow>, ps: seq<ParameterInfo>,
      at: seq<nat>) {
    && |at| == |ps|
    && (forall i, j | 0 <= i < j < |at| :: at[i] < at[j])
    && (forall k | 0 <= k < |at| :: at[k] < |rows| && ReportsParameter(d, maxDepth, rows[at[k]], ps[k]))
    && forall i | 0 <= i < |rows| ::
         i in at <==> d.strip(rows[i].name) != "" && d.upper(d.strip(rows[i].class_)) in {"I", "E", "T", "C"}
  }

  /** Every row with a name and one of the codes I, E, T and C becomes a parameter of that class,
      in order, and no other row does. */
  lemma ParametersExactly(d: Dictionary, rows: seq<ParamRow>, maxDepth: int) returns (at: seq<nat>)
    requires Parameters(d, rows, maxDepth).Ok?
    ensures ReportsParameters(d, maxDepth, rows, Parameters(d, rows, maxDepth).value, at)
  {
    at := ParametersPick(d, rows, maxDepth);
    var ps := Parameters(d, rows, maxDepth).value;
    hide Parameters, Resolve;
    forall k | 0 <= k < |at|
      ensures at[k] < |rows| && ReportsParameter(d, maxDepth, rows[at[k]], ps[k])
    {
      assert IsParameter(d)(rows[at[k]]) && ps[k] == Described(d, maxDepth)(rows[at[k]]);
      assert FieldsOf(d, rows[at[k]], maxDepth).Ok?;
    }
    forall i | 0 <= i < |rows|
      ensures i in at <==> d.strip(rows[i].name) != "" && d.upper(d.strip(rows[i].class_)) in {"I", "E", "T", "C"}
    {
      assert IsParameter(d)(rows[i]) <==>
             d.strip(rows[i].name) != "" && d.upper(d.strip(rows[i].class_)) in {"I", "E", "T", "C"};
    }
  }

  lemma {:induction false} ExceptionsPick(d: Dictionary, rows: seq<ExceptionRow>) returns (at: seq<nat>)
    ensures Picks(rows, Exceptions(d, rows), at, IsException(d), Raised(d))
  {
    if rows == [] {
      at := [];
    } else {
      var before, row := rows[..|rows| - 1], rows[|rows| - 1];
      at := ExceptionsPick(d, before);
      PicksSnoc(before, row, Exceptions(d, before), at, IsException(d), Raised(d));
      assert before + [row] == rows;
      if IsException(d)(row) { at := at + [|before|]; }
    }
  }

  /** SAP's repository. `define` is RFC_GET_FUNCTION_INTERFACE, `structures` the data
      dictionary, both at a moment: the lookups for one interface are taken together. */
  datatype Sap = Sap(
    strip: string -> string, casing: Casing,
    define: (string, int) -> Result<Definition, int>,
    structures: (string, int) -> Result<seq<StructureResolver.Row>, int>,
    maxDepth: int)

  function DictionaryAt(sap: Sap, now: int): Dictionary {
    Dictionary(sap.strip, s => Upper(sap.casing, s), name => sap.structures(name, now))
  }

  /** What `get_interface` computes without the cache. */
  function Describe(sap: Sap, name: string, now: int): Result<Interface, int> {
    match sap.define(name, now)
    case Err(e) => Err(e)
    case Ok(definition) =>
      var d := DictionaryAt(sap, now);
      match Parameters(d, definition.params, sap.maxDepth)
      case Err(e) => Err(e)
      case Ok(parameters) => Ok(Interface(name, Body(parameters, Exceptions(d, definition.exceptions))))
  }

  /** `exceptions` are of the rows at `at`: those with a name. */
  ghost predicate ReportsExceptions(strip: string -> string, rows: seq<ExceptionRow>, exceptions: seq<ExceptionInfo>,
      at: seq<nat>) {
    && |at| == |exceptions|
    && (forall i, j | 0 <= i < j < |at| :: at[i] < at[j])
    && (forall k | 0 <= k < |at| ::
          at[k] < |rows| && exceptions[k] == ExceptionInfo(strip(rows[at[k]].name), strip(rows[at[k]].text)))
    && forall i | 0 <= i < |rows| :: i in at <==> strip(rows[i].name) != ""
  }

  lemma PicksReportExceptions(d: Dictionary, rows: seq<ExceptionRow>, exceptions: seq<ExceptionInfo>, at: seq<nat>)
    requires Picks(rows, exceptions, at, IsException(d), Raised(d))
    ensures ReportsExceptions(d.strip, rows, exceptions, at)
  {
    forall k | 0 <= k < |at|
      ensures d.strip(rows[at[k]].name) != ""
      ensures exceptions[k] == ExceptionInfo(d.strip(rows[at[k]].name), d.strip(rows[at[k]].text))
    {
      assert IsException(d)(rows[at[k]]) && exceptions[k] == Raised(d)(rows[at[k]]);
    }
    forall i | 0 <= i < |rows| && d.strip(rows[i].name) != ""
      ensures i in at
    {
      assert IsException(d)(rows[i]);
    }
  }

  /** What SAP's repository says about a function is what the interface reports, under the name
      as it was asked for: its parameters, with the fields that the data dictionary gives under
      the configured depth, and its exceptions. It fails exactly if the definition or a structure
      of one of its parameters cannot be had. */
  lemma InterfaceExactly(sap: Sap, name: string, now: int) returns (d: Dictionary, at: seq<nat>, raised: seq<nat>)
    ensures forall s: string ::
              d.strip(s) == sap.strip(s) && d.upper(s) == Upper(sap.casing, s) && d.define(s) == sap.structures(s, now)
    ensures var found, r := sap.define(name, now), Describe(sap, name, now);
            && (found.Err? ==> r == Err(found.error))
            && (found.Ok? ==>
                  && (r.Err? <==> exists i :: 0 <= i < |found.value.params| && IsParameter(d)(found.value.params[i]) &&
                                              FieldsOf(d, found.value.params[i], sap.maxDepth).Err?)
                  && (r.Ok? ==>
                        && r.value.name == name
                        && ReportsParameters(d, sap.maxDepth, found.value.params, r.value.body.parameters, at)
                        && ReportsExceptions(sap.strip, found.value.exceptions, r.value.body.exceptions, raised)))
  {
    hide Parameters, Exceptions, ReportsParameters, ReportsExceptions, FieldsOf;
    d := DictionaryAt(sap, now);
    at, raised := [], [];
    var found := sap.define(name, now);
    if found.Ok? {
      at := ParametersPick(d, found.value.params, sap.maxDepth);
      if Parameters(d, found.value.params, sap.maxDepth).Ok? {
        at := ParametersExactly(d, found.value.params, sap.maxDepth);
      }
      raised := ExceptionsPick(d, found.value.exceptions);
      PicksReportExceptions(d, found.value.exceptions, Exceptions(d, found.value.exceptions), raised);
    }
  }

  // ---- the code ----

  /** What threads do to the interface cache. A fill stores the interface that was built for
      `name`, in the caller's spelling, from answers given at `asked`. */
  datatype Use =
    | LookUp(name: string, at: int)
    | Store(name: string, asked: int, built: Interface, at: int)
    | Forget(at: int)

  function OpFor(u: Casing, use: Use): Op<Interface> {
    match use
    case LookUp(name, at) => Op.Get(Upper(u, name), at)
    case Store(name, _, built, at) => Op.Set(Upper(u, name), built, at)
    case Forget(at) => Op.Clear(at)
  }

  class InterfaceCatalog {
    const sap: Sap
    const cache: TTLCache<Interface>

    constructor (sap: Sap, ttl: int)
      ensures this.sap == sap && fresh(cache) && cache.ttl == ttl && cache.store == map[]
    {
      this.sap := sap;
      cache := new TTLCache(ttl);
    }

    /** The loop over PARAMS. */
    method BuildParameters(caller: Caller, rows: seq<ParamRow>) returns (r: Result<seq<ParameterInfo>, int>)
      modifies caller
      ensures r == Parameters(caller.dictionary, rows, sap.maxDepth)
    {
      var d := caller.dictionary;
      var parameters: seq<ParameterInfo> := [];
      for i := 0 to |rows|
        invariant Parameters(d, rows[..i], sap.maxDepth) == Ok(parameters)
      {
        assert rows[..i + 1][..i] == rows[..i];
        var row := rows[i];
        if !IsParameter(d)(row) {
          continue;
        }
        var structureName := d.strip(row.tabName);
        var fields := ResolveStructureFields(caller, structureName, sap.maxDepth);
        if fields.Err? {
          FailedParameter(d, rows, i, sap.maxDepth);
          return Err(fields.error);
        }
        parameters := parameters + [Described(d, sap.maxDepth)(row)];
      }
      assert rows[..|rows|] == rows;
      return Ok(parameters);
    }

    /** The loop over EXCEPTIONS. */
    method BuildExceptions(d: Dictionary, rows: seq<ExceptionRow>) returns (exceptions: seq<ExceptionInfo>)
      ensures exceptions == Exceptions(d, rows)
    {
      exceptions := [];
      for i := 0 to |rows|
        invariant exceptions == Exceptions(d, rows[..i])
      {
        assert rows[..i + 1][..i] == rows[..i];
        if !IsException(d)(rows[i]) {
          continue;
        }
        exceptions := exceptions + [Raised(d)(rows[i])];
      }
      assert rows[..|rows|] == rows;
    }

    /** `_do_get_interface`. */
    method DoGetInterface(name: string, now: int) returns (r: Result<Interface, int>)
      ensures r == Describe(sap, name, now)
    {
      match sap.define(name, now)
      case Err(e) =>
        return Err(e);
      case Ok(definition) =>
        var caller := new Caller(DictionaryAt(sap, now));
        var parameters := BuildParameters(caller, definition.params);
        if parameters.Err? {
          return Err(parameters.error);
        }
        var exceptions := BuildExceptions(DictionaryAt(sap, now), definition.exceptions);
        return Ok(Interface(name, Body(parameters.value, exceptions)));
    }

    /** `get_interface`: the key is the name in upper case, the stored interface has the name as
        this caller wrote it. */
    method GetInterface(name: string, looked: int, asked: int, stored: int) returns (r: Result<Interface, int>)
      modifies cache
      ensures var hit := Peek(old(cache.store), Upper(sap.casing, name), looked);
              var store := After(cache.ttl, old(cache.store), OpFor(sap.casing, LookUp(name, looked)));
              if hit.Some? then r == Ok(hit.value) && cache.store == store
              else
                && r == Describe(sap, name, asked)
                && cache.store == if r.Err? then store
                                  else After(cache.ttl, store, OpFor(sap.casing, Store(name, asked, r.value, stored)))
    {
      var key := Upper(sap.casing, name);
      var hit := cache.Get(key, looked);
      if hit.Some? {
        return Ok(hit.value);
      }
      r := DoGetInterface(name, asked);
      if r.Ok? {
        cache.Set(key, r.value, stored);
      }
    }
  }

  lemma {:induction false} FailedParameter(d: Dictionary, rows: seq<ParamRow>, i: nat, maxDepth: int)
    requires i < |rows| && IsParameter(d)(rows[i]) && FieldsOf(d, rows[i], maxDepth).Err?
    requires Parameters(d, rows[..i], maxDepth).Ok?
    ensures Parameters(d, rows, maxDepth) == Err(FieldsOf(d, rows[i], maxDepth).error)
  {
    var before := rows[..|rows| - 1];
    if i == |rows| - 1 {
      assert before == rows[..i];
    } else {
      assert before[..i] == rows[..i] && before[i] == rows[i];
      FailedParameter(d, before, i, maxDepth);
    }
  }

  // ---- cached against uncached ----

  function OpsFor(u: Casing, uses: seq<Use>): seq<Op<Interface>> {
    seq(|uses|, i requires 0 <= i < |uses| => OpFor(u, uses[i]))
  }

  /** Stored interfaces are what was built for the name, at most `delay` before. */
  ghost predicate HonestUses(sap: Sap, uses: seq<Use>, delay: int) {
    forall i | 0 <= i < |uses| && uses[i].Store? ::
      && Ok(uses[i].built) == Describe(sap, uses[i].name, uses[i].asked)
      && uses[i].asked <= uses[i].at <= uses[i].asked + delay
  }

  /** The same apart from the name. */
  predicate SameBody(a: Result<Interface, int>, b: Result<Interface, int>) {
    if a.Ok? then b.Ok? && a.value.body == b.value.body else a == b
  }

  /** Interfaces do not depend on the case of the name, and do not change within `window`. */
  ghost predicate SteadySap(sap: Sap, window: int) {
    && (forall f: string, g: string, t: int | Upper(sap.casing, f) == Upper(sap.casing, g) ::
          SameBody(Describe(sap, f, t), Describe(sap, g, t)))
    && (forall f: string, t: int, t': int | t <= t' <= t + window :: Describe(sap, f, t') == Describe(sap, f, t))
  }

  /** While the last fill under the name's key has not expired, a caller gets the interface that
      would be built now if and only if that fill was made for the same spelling of the name;
      otherwise it gets that interface under the other spelling. */
  lemma {:induction false} CachedEqualsUncachedIff(sap: Sap, uses: seq<Use>, ttl: int, delay: int, name: string,
      now: int, i: nat)
    requires HonestUses(sap, uses, delay) && SteadySap(sap, ttl + delay) && InOrder(OpsFor(sap.casing, uses), now)
    requires LastSet(OpsFor(sap.casing, uses), Upper(sap.casing, name)) == Some(i)
    requires i < |uses| && now - uses[i].at <= ttl
    ensures uses[i].Store?
    ensures var hit := Peek(Run(ttl, OpsFor(sap.casing, uses)), Upper(sap.casing, name), now);
            && hit.Some?
            && (Ok(hit.value) == Describe(sap, name, now) <==> uses[i].name == name)
            && Ok(hit.value.(name := name)) == Describe(sap, name, now)
  {
    var ops, key := OpsFor(sap.casing, uses), Upper(sap.casing, name);
    GetReturnsTheLastSet(ttl, ops, key, now);
    LastSetIsSet(ops, key);
    assert ops[i] == OpFor(sap.casing, uses[i]);
    var first, asked := uses[i].name, uses[i].asked;
    assert SameBody(Describe(sap, first, asked), Describe(sap, name, asked));
    assert asked <= now <= asked + (ttl + delay);
    assert Describe(sap, name, now) == Describe(sap, name, asked);
    NamedAsAsked(sap, first, asked);
    NamedAsAsked(sap, name, now);
  }

  lemma NamedAsAsked(sap: Sap, name: string, now: int)
    ensures Describe(sap, name, now).Ok? ==> Describe(sap, name, now).value.name == name
  {}

  /** A repository that knows every function, without parameters. */
  function EmptySap(): Sap {
    Sap(s => s, c => if c == 'a' then "A" else [c], (_, _) => Ok(Definition([], [])), (_, _) => Ok([]), 8)
  }

  /** One caller asks for "a"; the next one asks for "A" and is told about "a". */
  lemma OtherSpellingIsReturned()
    ensures var sap := EmptySap();
            var uses := [LookUp("a", 0), Store("a", 0, Interface("a", Body([], [])), 0)];
            && HonestUses(sap, uses, 0) && SteadySap(sap, 0)
            && Peek(Run(0, OpsFor(sap.casing, uses)), Upper(sap.casing, "A"), 0) == Some(Interface("a", Body([], [])))
            && Describe(sap, "A", 0) == Ok(Interface("A", Body([], [])))
  {
    var sap := EmptySap();
    var uses := [LookUp("a", 0), Store("a", 0, Interface("a", Body([], [])), 0)];
    var ops := OpsFor(sap.casing, uses);
    var key := "A";
    assert Upper(sap.casing, "a") == "A" + Upper(sap.casing, []) == key;
    assert Upper(sap.casing, "A") == "A" + Upper(sap.casing, []) == key;
    assert ops == [Op.Get(key, 0), Op.Set(key, Interface("a", Body([], [])), 0)];
    assert ops[..1] == [Op.Get(key, 0)] && ops[..1][..0] == [];
    assert Run(0, ops[..1]) == map[];
  }
}
