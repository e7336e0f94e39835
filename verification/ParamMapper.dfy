/** From the caller's parameters to the keyword arguments of the RFC, and the table name that
    the policy inspects on the way. */
module ParamMapper {
  import opened Common

  datatype ParamClass = Import | Export | Tables | Changing

  datatype Parameter = Parameter(name: string, class_: ParamClass, optional: bool, default: string)

  /** One entry of the caller's dict; the entries stand in insertion order. */
  datatype Arg<V> = Arg(key: string, value: V)

  type Upper = string -> string

  ghost predicate IsDict<V>(args: seq<Arg<V>>) {
    forall i, j | 0 <= i < j < |args| :: args[i].key != args[j].key
  }

  predicate Supplied<V>(args: seq<Arg<V>>, up: Upper, u: string) {
    exists i | 0 <= i < |args| :: up(args[i].key) == u
  }

  /** The position of the last key that is `u` in upper case. */
  function LastAt<V>(args: seq<Arg<V>>, up: Upper, u: string): (i: nat)
    requires Supplied(args, up, u)
    ensures i < |args| && up(args[i].key) == u
    ensures forall j | i < j < |args| :: up(args[j].key) != u
  {
    if up(args[|args| - 1].key) == u then |args| - 1 else LastAt(args[..|args| - 1], up, u)
  }

  function LastValue<V>(args: seq<Arg<V>>, up: Upper, u: string): V
    requires Supplied(args, up, u)
  {
    args[LastAt(args, up, u)].value
  }

  predicate Known(parameters: seq<Parameter>, up: Upper, u: string) {
    exists i | 0 <= i < |parameters| :: up(parameters[i].name) == u
  }

  predicate Required(p: Parameter) { p.class_.Import? && !p.optional && p.default == "" }

  /** Every supplied key is known up to case, and every required parameter is supplied. */
  ghost predicate Accepted<V>(parameters: seq<Parameter>, args: seq<Arg<V>>, up: Upper) {
    && (forall i | 0 <= i < |args| :: Known(parameters, up, up(args[i].key)))
    && (forall i | 0 <= i < |parameters| && Required(parameters[i]) :: Supplied(args, up, up(parameters[i].name)))
  }

  predicate Named(parameters: seq<Parameter>, name: string) {
    exists i | 0 <= i < |parameters| :: parameters[i].name == name
  }

  predicate Wanted<V>(parameters: seq<Parameter>, args: seq<Arg<V>>, up: Upper, name: string) {
    Named(parameters, name) && Supplied(args, up, up(name))
  }

  /** The arguments are exactly the interface names that were supplied; each has the value of
      the last key that spells it, in any case. */
  ghost predicate Maps<V>(parameters: seq<Parameter>, args: seq<Arg<V>>, up: Upper, m: map<string, V>) {
    && (forall name :: name in m <==> Wanted(parameters, args, up, name))
    && (forall name | name in m :: Supplied(args, up, up(name)) && m[name] == LastValue(args, up, up(name)))
  }

  datatype MappingError = UnknownParameters(names: seq<string>) | MissingParameters(names: seq<string>)

  /** The keys that no parameter has, in order. */
  function Unknown<V>(parameters: seq<Parameter>, args: seq<Arg<V>>, up: Upper): seq<string> {
    if args == [] then []
    else
      var key := args[|args| - 1].key;
      Unknown(parameters, args[..|args| - 1], up) + if Known(parameters, up, up(key)) then [] else [key]
  }

  /** The required parameters that were not supplied, in order. */
  function Missing<V>(parameters: seq<Parameter>, args: seq<Arg<V>>, up: Upper): seq<string> {
    if parameters == [] then []
    else
      var p := parameters[|parameters| - 1];
      Missing(parameters[..|parameters| - 1], args, up) +
      if Required(p) && !Supplied(args, up, up(p.name)) then [p.name] else []
  }

  lemma {:induction false} NoUnknown<V>(parameters: seq<Parameter>, args: seq<Arg<V>>, up: Upper)
    ensures Unknown(parameters, args, up) == [] <==>
            forall i | 0 <= i < |args| :: Known(parameters, up, up(args[i].key))
  {
    if args != [] {
      var rest := args[..|args| - 1];
      NoUnknown(parameters, rest, up);
      assert forall i | 0 <= i < |rest| :: rest[i] == args[i];
    }
  }

  lemma {:induction false} NoMissing<V>(parameters: seq<Parameter>, args: seq<Arg<V>>, up: Upper)
    ensures Missing(parameters, args, up) == [] <==>
            forall i | 0 <= i < |parameters| && Required(parameters[i]) :: Supplied(args, up, up(parameters[i].name))
  {
    if parameters != [] {
      var rest := parameters[..|parameters| - 1];
      NoMissing(rest, args, up);
      assert forall i | 0 <= i < |rest| :: rest[i] == parameters[i];
    }
  }

  /** When a call is accepted: each key is, in upper case, the name of a parameter in upper case,
      and for each IMPORT parameter that is neither optional nor has a default there is such a
      key. */
  lemma AcceptedExactly<V>(parameters: seq<Parameter>, args: seq<Arg<V>>, up: Upper)
    ensures Accepted(parameters, args, up) <==>
            && (forall a | a in args :: exists p :: p in parameters && up(p.name) == up(a.key))
            && (forall p | p in parameters && p.class_.Import? && !p.optional && p.default == "" ::
                  exists a :: a in args && up(a.key) == up(p.name))
  {
    if Accepted(parameters, args, up) {
      forall a | a in args
        ensures exists p :: p in parameters && up(p.name) == up(a.key)
      {
        var i :| 0 <= i < |args| && args[i] == a;
        var k :| 0 <= k < |parameters| && up(parameters[k].name) == up(args[i].key);
        assert parameters[k] in parameters;
      }
      forall p | p in parameters && p.class_.Import? && !p.optional && p.default == ""
        ensures exists a :: a in args && up(a.key) == up(p.name)
      {
        var i :| 0 <= i < |parameters| && parameters[i] == p;
        assert args[LastAt(args, up, up(p.name))] in args;
      }
    }
    if (forall a | a in args :: exists p :: p in parameters && up(p.name) == up(a.key)) {
      forall i | 0 <= i < |args|
        ensures Known(parameters, up, up(args[i].key))
      {
        assert args[i] in args;
      }
    }
    if forall p | p in parameters && p.class_.Import? && !p.optional && p.default == "" ::
         exists a :: a in args && up(a.key) == up(p.name) {
      forall i | 0 <= i < |parameters| && Required(parameters[i])
        ensures Supplied(args, up, up(parameters[i].name))
      {
        assert parameters[i] in parameters;
      }
    }
  }

  /** What is sent: under each parameter name that some key spells in any case, and under no
      other name, the value of the last such key. */
  lemma MapsExactly<V>(parameters: seq<Parameter>, args: seq<Arg<V>>, up: Upper, m: map<string, V>, name: string)
    requires Maps(parameters, args, up, m)
    ensures name in m <==>
            (exists p :: p in parameters && p.name == name) && exists a :: a in args && up(a.key) == up(name)
    ensures name in m ==>
            exists i :: 0 <= i < |args| && up(args[i].key) == up(name) && m[name] == args[i].value &&
                        forall j | i < j < |args| :: up(args[j].key) != up(name)
  {
    if name in m {
      assert Wanted(parameters, args, up, name);
      var k :| 0 <= k < |parameters| && parameters[k].name == name;
      assert parameters[k] in parameters;
      var i := LastAt(args, up, up(name));
      assert args[i] in args && m[name] == args[i].value;
    }
    if (exists p :: p in parameters && p.name == name) && exists a :: a in args && up(a.key) == up(name) {
      assert Named(parameters, name) && Supplied(args, up, up(name));
      assert Wanted(parameters, args, up, name);
    }
  }

  function IsUnknown<V>(parameters: seq<Parameter>, up: Upper): Arg<V> -> bool {
    (a: Arg<V>) => forall i | 0 <= i < |parameters| :: up(parameters[i].name) != up(a.key)
  }

  function KeyOf<V>(): Arg<V> -> string { (a: Arg<V>) => a.key }

  /** The error about unknown parameters names exactly the keys that no parameter has, in order. */
  lemma {:induction false} UnknownPicks<V(!new)>(parameters: seq<Parameter>, args: seq<Arg<V>>, up: Upper)
    returns (at: seq<nat>)
    ensures Picks(args, Unknown(parameters, args, up), at, IsUnknown(parameters, up), KeyOf())
  {
    if args == [] {
      at := [];
    } else {
      var before, a := args[..|args| - 1], args[|args| - 1];
      at := UnknownPicks(parameters, before, up);
      PicksSnoc(before, a, Unknown(parameters, before, up), at, IsUnknown(parameters, up), KeyOf());
      assert before + [a] == args;
      if IsUnknown(parameters, up)(a) { at := at + [|before|]; }
    }
  }

  function IsMissing<V>(args: seq<Arg<V>>, up: Upper): Parameter -> bool {
    (p: Parameter) =>
      p.class_.Import? && !p.optional && p.default == "" && forall i | 0 <= i < |args| :: up(args[i].key) != up(p.name)
  }

  function NameOf(): Parameter -> string { (p: Parameter) => p.name }

  /** The error about missing parameters names exactly the required ones without a key, in order. */
  lemma {:induction false} MissingPicks<V(!new)>(parameters: seq<Parameter>, args: seq<Arg<V>>, up: Upper)
    returns (at: seq<nat>)
    ensures Picks(parameters, Missing(parameters, args, up), at, IsMissing(args, up), NameOf())
  {
    if parameters == [] {
      at := [];
    } else {
      var before, p := parameters[..|parameters| - 1], parameters[|parameters| - 1];
      at := MissingPicks(before, args, up);
      PicksSnoc(before, p, Missing(before, args, up), at, IsMissing(args, up), NameOf());
      assert before + [p] == parameters;
      if IsMissing(args, up)(p) { at := at + [|before|]; }
    }
  }

  lemma SuppliedSnoc<V>(args: seq<Arg<V>>, n: nat, up: Upper, u: string)
    requires n < |args|
    ensures Supplied(args[..n + 1], up, u) <==> Supplied(args[..n], up, u) || up(args[n].key) == u
    ensures up(args[n].key) == u ==> LastAt(args[..n + 1], up, u) == n
    ensures up(args[n].key) != u && Supplied(args[..n], up, u) ==>
            LastAt(args[..n + 1], up, u) == LastAt(args[..n], up, u)
  {
    assert args[..n + 1][..n] == args[..n];
    if Supplied(args[..n], up, u) {
      var i :| 0 <= i < n && up(args[..n][i].key) == u;
      assert args[..n + 1][i] == args[..n][i];
    }
    assert args[..n + 1][n] == args[n];
  }

  /** `{k.upper(): k for k in parameters}`: of the keys that differ only in case, the last. */
  method ByUpper<V>(args: seq<Arg<V>>, up: Upper) returns (at: map<string, nat>)
    ensures forall u :: u in at <==> Supplied(args, up, u)
    ensures forall u | u in at :: at[u] == LastAt(args, up, u)
  {
    at := map[];
    for n := 0 to |args|
      invariant forall u :: u in at <==> Supplied(args[..n], up, u)
      invariant forall u | u in at :: at[u] == LastAt(args[..n], up, u)
    {
      forall u
        ensures Supplied(args[..n + 1], up, u) <==> Supplied(args[..n], up, u) || up(args[n].key) == u
      {
        SuppliedSnoc(args, n, up, u);
      }
      forall u | Supplied(args[..n + 1], up, u)
        ensures LastAt(args[..n + 1], up, u) == if up(args[n].key) == u then n else LastAt(args[..n], up, u)
      {
        SuppliedSnoc(args, n, up, u);
      }
      at := at[up(args[n].key) := n];
    }
    assert args[..|args|] == args;
  }

  /** `build_call_kwargs`. */
  method BuildCallKwargs<V>(parameters: seq<Parameter>, args: seq<Arg<V>>, up: Upper)
    returns (r: Result<map<string, V>, MappingError>)
    requires IsDict(args)
    ensures r.Ok? <==> Accepted(parameters, args, up)
    ensures r.Ok? ==> Maps(parameters, args, up, r.value)
    ensures r.Err? && r.error.UnknownParameters? ==> r.error.names == Unknown(parameters, args, up) != []
    ensures r.Err? && r.error.MissingParameters? ==>
              Unknown(parameters, args, up) == [] && r.error.names == Missing(parameters, args, up) != []
  {
    var provided := ByUpper(args, up);
    NoUnknown(parameters, args, up);
    NoMissing(parameters, args, up);
    var unknown := Unknown(parameters, args, up);
    if unknown != [] {
      return Err(UnknownParameters(unknown));
    }
    var missing := Missing(parameters, args, up);
    if missing != [] {
      return Err(MissingParameters(missing));
    }
    var kwargs := Collect(parameters, args, up, provided);
    r := Ok(kwargs);
  }

  /** The loop of `build_call_kwargs`. */
  method Collect<V>(parameters: seq<Parameter>, args: seq<Arg<V>>, up: Upper, provided: map<string, nat>)
    returns (kwargs: map<string, V>)
    requires forall u :: u in provided <==> Supplied(args, up, u)
    requires forall u | u in provided :: provided[u] == LastAt(args, up, u)
    ensures Maps(parameters, args, up, kwargs)
  {
    hide Supplied, LastAt, Named;
    kwargs := map[];
    assert forall name :: !Named(parameters[..0], name) by { NobodyNamed(parameters); }
    for n := 0 to |parameters|
      invariant forall name :: name in kwargs <==> Named(parameters[..n], name) && Supplied(args, up, up(name))
      invariant forall name | name in kwargs :: kwargs[name] == LastValue(args, up, up(name))
    {
      var p := parameters[n];
      NamedSnoc(parameters, n);
      if up(p.name) in provided {
        kwargs := kwargs[p.name := args[provided[up(p.name)]].value];
      }
    }
    assert parameters[..|parameters|] == parameters;
  }

  lemma NobodyNamed(parameters: seq<Parameter>)
    ensures forall name :: !Named(parameters[..0], name)
  {}

  lemma NamedSnoc(parameters: seq<Parameter>, n: nat)
    requires n < |parameters|
    ensures forall name :: Named(parameters[..n + 1], name) <==>
            Named(parameters[..n], name) || name == parameters[n].name
  {
    forall name
      ensures Named(parameters[..n + 1], name) <==> Named(parameters[..n], name) || name == parameters[n].name
    {
      if Named(parameters[..n], name) {
        var i :| 0 <= i < n && parameters[..n][i].name == name;
        assert parameters[..n + 1][i].name == name;
      }
      assert parameters[..n + 1][n] == parameters[n];
    }
  }

  // ---- mapping the result again ----

  /** `args` is the dict `m`, its entries in some order. */
  ghost predicate Entries<V>(args: seq<Arg<V>>, m: map<string, V>) {
    && IsDict(args)
    && (forall i | 0 <= i < |args| :: args[i].key in m && m[args[i].key] == args[i].value)
    && (forall name | name in m :: exists i | 0 <= i < |args| :: args[i].key == name)
  }

  lemma SuppliedAgain<V>(parameters: seq<Parameter>, args: seq<Arg<V>>, up: Upper, m: map<string, V>,
      again: seq<Arg<V>>, u: string)
    requires Accepted(parameters, args, up) && Maps(parameters, args, up, m) && Entries(again, m)
    ensures Supplied(again, up, u) <==> Supplied(args, up, u)
    ensures Supplied(args, up, u) ==> LastValue(again, up, u) == LastValue(args, up, u)
  {
    if Supplied(args, up, u) {
      var i := LastAt(args, up, u);
      var k :| 0 <= k < |parameters| && up(parameters[k].name) == up(args[i].key);
      assert Named(parameters, parameters[k].name) && Wanted(parameters, args, up, parameters[k].name);
      var j :| 0 <= j < |again| && again[j].key == parameters[k].name;
      assert up(again[j].key) == u;
      var last := LastAt(again, up, u);
      assert again[last].key in m;
    }
    if Supplied(again, up, u) {
      var j := LastAt(again, up, u);
      assert again[j].key in m;
    }
  }

  /** The keyword arguments, passed in again in any order, are accepted and come out the same. */
  lemma MappingIsIdempotent<V>(parameters: seq<Parameter>, args: seq<Arg<V>>, up: Upper, m: map<string, V>,
      again: seq<Arg<V>>)
    requires Accepted(parameters, args, up) && Maps(parameters, args, up, m) && Entries(again, m)
    ensures Accepted(parameters, again, up) && Maps(parameters, again, up, m)
  {
    forall u: string
      ensures Supplied(again, up, u) <==> Supplied(args, up, u)
      ensures Supplied(args, up, u) ==> LastValue(again, up, u) == LastValue(args, up, u)
    {
      SuppliedAgain(parameters, args, up, m, again, u);
    }
    forall i | 0 <= i < |again|
      ensures Known(parameters, up, up(again[i].key))
    {
      assert Wanted(parameters, args, up, again[i].key);
    }
  }

  /** There is only one such mapping. */
  lemma MappingIsUnique<V>(parameters: seq<Parameter>, args: seq<Arg<V>>, up: Upper, m: map<string, V>,
      n: map<string, V>)
    requires Maps(parameters, args, up, m) && Maps(parameters, args, up, n)
    ensures m == n
  {
    assert m.Keys == n.Keys;
  }
}
