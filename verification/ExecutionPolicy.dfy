/** The policy's decision on a call, and its agreement with what the parameter mapper sends. */
module ExecutionPolicies {
  import opened Common
  import opened ParamMapper

  const GENERIC_TABLE_READER_PARAM := "QUERY_TABLE"

  /** The pattern lists of PolicySettings, as predicates on names. */
  datatype Settings = Settings(
    isTableReader: string -> bool, isTableDenied: string -> bool,
    isReadAllowed: string -> bool, isWriteAllowed: string -> bool, readWrite: bool)

  datatype Mode = Read | Write | OtherMode(name: string)

  datatype Denial = DeniedTable | DeniedRead | ReadOnlyServer | DeniedWrite | UnknownMode

  /** How Python sees a parameter value: its truth and its `str`. */
  datatype Python<!V> = Python(truthy: V -> bool, text: V -> string)

  /** `{k.upper(): v for k, v in parameters.items()}`: entries in order, later ones overwrite. */
  function UpperDict<V>(args: seq<Arg<V>>, up: Upper): map<string, V> {
    if args == [] then map[]
    else
      var last := args[|args| - 1];
      UpperDict(args[..|args| - 1], up)[up(last.key) := last.value]
  }

  /** Under each upper-case name the dict has the value of the last key that spells it. */
  lemma {:induction false} UpperDictHasLastValues<V>(args: seq<Arg<V>>, up: Upper, u: string)
    ensures u in UpperDict(args, up) <==> Supplied(args, up, u)
    ensures u in UpperDict(args, up) ==> UpperDict(args, up)[u] == LastValue(args, up, u)
  {
    if args != [] {
      var before := args[..|args| - 1];
      UpperDictHasLastValues(before, up, u);
      SuppliedSnoc(args, |args| - 1, up, u);
      assert args[..|args| - 1 + 1] == args;
    } else {
      assert !Supplied(args, up, u);
    }
  }

  /** `_generic_table_reader_target`: the table the policy inspects. */
  function Target<V>(settings: Settings, python: Python<V>, function_: string, args: seq<Arg<V>>,
      up: Upper): Option<string> {
    var provided := UpperDict(args, up);
    if !settings.isTableReader(function_) || GENERIC_TABLE_READER_PARAM !in provided then None
    else
      var table := provided[GENERIC_TABLE_READER_PARAM];
      if python.truthy(table) then Some(python.text(table)) else None
  }

  /** `_authorize_unlogged`: the first objection, if any. */
  function Objection(settings: Settings, mode: Mode, function_: string, target: Option<string>): Option<Denial> {
    if target.Some? && settings.isTableDenied(target.value) then Some(DeniedTable)
    else match mode
      case Read => if settings.isReadAllowed(function_) then None else Some(DeniedRead)
      case Write =>
        if !settings.readWrite then Some(ReadOnlyServer)
        else if settings.isWriteAllowed(function_) then None
        else Some(DeniedWrite)
      case OtherMode(_) => Some(UnknownMode)
  }

  /** `authorize`. */
  function Authorize<V>(settings: Settings, python: Python<V>, mode: Mode, function_: string, args: seq<Arg<V>>,
      up: Upper): Option<Denial> {
    Objection(settings, mode, function_, Target(settings, python, function_, args, up))
  }

  /** The call is a table read of a denied table: the last of the keys that spell QUERY_TABLE has
      a value that is true in Python's sense and names one. */
  ghost predicate ReadsDeniedTable<V>(settings: Settings, python: Python<V>, function_: string, args: seq<Arg<V>>,
      up: Upper) {
    settings.isTableReader(function_) &&
    exists i :: 0 <= i < |args| && up(args[i].key) == "QUERY_TABLE" && python.truthy(args[i].value) &&
                settings.isTableDenied(python.text(args[i].value)) &&
                forall j | i < j < |args| :: up(args[j].key) != "QUERY_TABLE"
  }

  /** Who may do what. A denied table stops a call in any mode and before everything else. Else a
      read needs the name to be allowed, a write a read-write server and the name to be allowed,
      and there is no other mode. */
  lemma DecisionExactly<V>(settings: Settings, python: Python<V>, mode: Mode, function_: string, args: seq<Arg<V>>,
      up: Upper)
    ensures var decision, denied := Authorize(settings, python, mode, function_, args, up),
                                    ReadsDeniedTable(settings, python, function_, args, up);
            && (decision == Some(DeniedTable) <==> denied)
            && (decision == None <==>
                  !denied && ((mode.Read? && settings.isReadAllowed(function_)) ||
                              (mode.Write? && settings.readWrite && settings.isWriteAllowed(function_))))
            && (decision == Some(ReadOnlyServer) <==> !denied && mode.Write? && !settings.readWrite)
            && (decision == Some(DeniedRead) <==> !denied && mode.Read? && !settings.isReadAllowed(function_))
            && (decision == Some(UnknownMode) <==> !denied && mode.OtherMode?)
  {
    UpperDictHasLastValues(args, up, GENERIC_TABLE_READER_PARAM);
    if Supplied(args, up, GENERIC_TABLE_READER_PARAM) {
      var i := LastAt(args, up, GENERIC_TABLE_READER_PARAM);
      assert UpperDict(args, up)[GENERIC_TABLE_READER_PARAM] == args[i].value;
    }
  }

  /** The table that the policy inspects is the table that is sent: every argument whose name
      is QUERY_TABLE in upper case has the value that was inspected, and one is sent only if
      one was inspected, however many keys differ only in case. */
  lemma CheckedTableEqualsSentTable<V>(parameters: seq<Parameter>, args: seq<Arg<V>>, up: Upper,
      kwargs: map<string, V>, name: string)
    requires Accepted(parameters, args, up) && Maps(parameters, args, up, kwargs)
    requires Named(parameters, name) && up(name) == GENERIC_TABLE_READER_PARAM
    ensures name in kwargs <==> GENERIC_TABLE_READER_PARAM in UpperDict(args, up)
    ensures name in kwargs ==> kwargs[name] == UpperDict(args, up)[GENERIC_TABLE_READER_PARAM]
  {
    UpperDictHasLastValues(args, up, GENERIC_TABLE_READER_PARAM);
    assert Wanted(parameters, args, up, name) <==> Supplied(args, up, up(name));
  }

  /** So a generic table reader that is authorised never sends the name of a denied table. */
  lemma DeniedTableIsNeverSent<V>(settings: Settings, python: Python<V>, mode: Mode, function_: string,
                                  parameters: seq<Parameter>, args: seq<Arg<V>>, up: Upper,
                                  kwargs: map<string, V>, name: string)
    requires Accepted(parameters, args, up) && Maps(parameters, args, up, kwargs)
    requires settings.isTableReader(function_) && Authorize(settings, python, mode, function_, args, up) == None
    requires name in kwargs && up(name) == GENERIC_TABLE_READER_PARAM
    ensures python.truthy(kwargs[name]) ==> !settings.isTableDenied(python.text(kwargs[name]))
  {
    assert Wanted(parameters, args, up, name);
    CheckedTableEqualsSentTable(parameters, args, up, kwargs, name);
  }

  /** Exactly when a table reader is stopped for its table: the value that would be sent is
      true in Python's sense and names a denied table. */
  lemma DeniedExactlyWhen<V>(settings: Settings, python: Python<V>, mode: Mode, function_: string,
                             parameters: seq<Parameter>, args: seq<Arg<V>>, up: Upper,
                             kwargs: map<string, V>, name: string)
    requires Accepted(parameters, args, up) && Maps(parameters, args, up, kwargs)
    requires settings.isTableReader(function_) && name in kwargs && up(name) == GENERIC_TABLE_READER_PARAM
    ensures Authorize(settings, python, mode, function_, args, up) == Some(DeniedTable) <==>
            python.truthy(kwargs[name]) && settings.isTableDenied(python.text(kwargs[name]))
  {
    assert Wanted(parameters, args, up, name);
    CheckedTableEqualsSentTable(parameters, args, up, kwargs, name);
  }

  /** Strings as Python sees them. */
  function Strings(): Python<string> { Python(s => s != "", s => s) }

  /** An empty table name is sent although the deny patterns match it: here every name is
      denied, the reader is allowed, and the call goes through. */
  lemma EmptyTableIsSent(function_: string)
    ensures var settings := Settings(_ => true, _ => true, _ => true, _ => false, false);
            var parameters := [Parameter(GENERIC_TABLE_READER_PARAM, Import, false, "")];
            var args := [Arg(GENERIC_TABLE_READER_PARAM, "")];
            && Authorize(settings, Strings(), Read, function_, args, s => s) == None
            && settings.isTableDenied("")
            && Accepted(parameters, args, s => s)
            && Maps(parameters, args, s => s, map[GENERIC_TABLE_READER_PARAM := ""])
  {
    var up: Upper := s => s;
    var name := GENERIC_TABLE_READER_PARAM;
    var parameters := [Parameter(name, Import, false, "")];
    var args := [Arg(name, "")];
    assert up(args[0].key) == name && up(parameters[0].name) == name;
    UpperDictHasLastValues(args, up, name);
    assert Supplied(args, up, name) && Known(parameters, up, name) && Named(parameters, name);
    assert LastAt(args, up, name) == 0;
  }
}
