/** Checking the arguments of an app function against its API. */
module Parameters {
  import opened Json
  import opened Elements

  /** The API keyed by name: of two parameters with one name the later wins. */
  function ApiDict(api: seq<Param>): (dict: map<string, Param>)
    ensures forall n :: n in dict ==> dict[n].name == n && dict[n] in api
  {
    if api == [] then map[]
    else ApiDict(api[..|api|-1])[api[|api|-1].name := api[|api|-1]]
  }

  lemma {:induction false} ApiDictKeys(api: seq<Param>)
    ensures ApiDict(api).Keys == set p | p in api :: p.name
  {
    if api != [] {
      var front := api[..|api|-1];
      ApiDictKeys(front);
      assert api == front + [api[|api|-1]];
    }
  }

  function FindArgument(args: seq<Argument>, name: string): (r: Option<Argument>)
    ensures r.Some? <==> exists a :: a in args && a.name == name
    ensures r.Some? ==> r.value in args && r.value.name == name
  {
    if args == [] then None
    else if args[0].name == name then Some(args[0])
    else FindArgument(args[1..], name)
  }

  datatype Fit = Bound(value: Value) | Skipped | Bad | Escapes

  /** What one API parameter comes to. A reference is skipped while there is no accumulator to read. */
  function ParamFit(w: World, p: Param, args: seq<Argument>, acc: Accumulator): Fit
  {
    match FindArgument(args, p.name)
    case Some(arg) =>
      (match GetValue(w, arg, acc)
       case None => Bad
       case Some(v) =>
         if acc == map[] && arg.value == Null then Skipped
         else match w.check(p, v) case Refuses => Bad case Raises => Escapes case Accepts(c) => Bound(c))
    case None =>
      (match p.default
       case Some(d) => (match w.check(p, d) case Refuses => Bound(d) case Raises => Escapes case Accepts(c) => Bound(c))
       case None => if p.required then Bad else Bound(Null))
  }

  function Fitting(w: World, dict: map<string, Param>, names: set<string>, args: seq<Argument>, acc: Accumulator)
    : (fitting: set<string>)
    requires names <= dict.Keys
    ensures fitting <= names
  {
    set n | n in names && !ParamFit(w, dict[n], args, acc).Bad? && !ParamFit(w, dict[n], args, acc).Escapes?
  }

  function BoundValues(w: World, dict: map<string, Param>, names: set<string>, args: seq<Argument>, acc: Accumulator)
    : map<string, Value>
    requires names <= dict.Keys
  {
    map n | n in names && ParamFit(w, dict[n], args, acc).Bound? :: ParamFit(w, dict[n], args, acc).value
  }

  /** Some parameter's check raises an error that is not caught. */
  predicate AnyEscapes(w: World, dict: map<string, Param>, names: set<string>, args: seq<Argument>, acc: Accumulator)
    requires names <= dict.Keys
  {
    exists n <- names :: ParamFit(w, dict[n], args, acc).Escapes?
  }

  /** The meaning of the check, stated without its bookkeeping: no check raises, every argument is named in the
      API and every parameter fits. */
  function CheckParameters(w: World, api: seq<Param>, args: seq<Argument>, acc: Accumulator)
    : Checked<map<string, Value>>
  {
    var dict := ApiDict(api);
    if AnyEscapes(w, dict, dict.Keys, args, acc) then Raises
    else if Names(args) <= dict.Keys && Fitting(w, dict, dict.Keys, args, acc) == dict.Keys
    then Accepts(BoundValues(w, dict, dict.Keys, args, acc))
    else Refuses
  }

  function Names(args: seq<Argument>): set<string>
  {
    set a | a in args :: a.name
  }

  lemma FittingGrows(w: World, dict: map<string, Param>, names: set<string>, name: string, args: seq<Argument>,
                     acc: Accumulator)
    requires names <= dict.Keys && name in dict && !ParamFit(w, dict[name], args, acc).Escapes?
    ensures Fitting(w, dict, names + {name}, args, acc) ==
            Fitting(w, dict, names, args, acc) + if ParamFit(w, dict[name], args, acc).Bad? then {} else {name}
    ensures BoundValues(w, dict, names + {name}, args, acc) ==
            var o := ParamFit(w, dict[name], args, acc);
            if o.Bound? then BoundValues(w, dict, names, args, acc)[name := o.value]
            else BoundValues(w, dict, names, args, acc)
    ensures name in Fitting(w, dict, names, args, acc) <==> name in names && !ParamFit(w, dict[name], args, acc).Bad?
    ensures AnyEscapes(w, dict, names + {name}, args, acc) <==> AnyEscapes(w, dict, names, args, acc)
  {
  }

  lemma NothingFits(w: World, dict: map<string, Param>, args: seq<Argument>, acc: Accumulator)
    ensures Fitting(w, dict, {}, args, acc) == {} && BoundValues(w, dict, {}, args, acc) == map[]
    ensures !AnyEscapes(w, dict, {}, args, acc)
  {
  }

  lemma OneEscapes(w: World, dict: map<string, Param>, name: string, args: seq<Argument>, acc: Accumulator)
    requires name in dict && ParamFit(w, dict[name], args, acc).Escapes?
    ensures AnyEscapes(w, dict, dict.Keys, args, acc)
  {
  }

  /** One turn of the loop in validate_parameters: what the parameter comes to, and whether it took its
      place in the argument set by default. */
  method ValidateOne(w: World, p: Param, args: seq<Argument>, acc: Accumulator)
    returns (o: Fit, defaulted: bool)
    ensures o == ParamFit(w, p, args, acc)
    ensures defaulted <==> !o.Bad? && !o.Escapes? && forall a :: a in args ==> a.name != p.name
  {
    var arg := FindArgument(args, p.name);
    defaulted := false;
    if arg.Some? {
      var v := GetValue(w, arg.value, acc);
      if v.None? {
        o := Bad;
      } else if acc != map[] || arg.value.value != Null {
        match w.check(p, v.value) {
          case Accepts(c) => o := Bound(c);
          case Refuses => o := Bad;
          case Raises => o := Escapes;
        }
      } else {
        o := Skipped;
      }
    } else if p.default.Some? {
      match w.check(p, p.default.value) {
        case Accepts(c) => o, defaulted := Bound(c), true;
        case Refuses => o, defaulted := Bound(p.default.value), true;
        case Raises => o := Escapes;
      }
    } else if p.required {
      o := Bad;
    } else {
      o, defaulted := Bound(Null), true;
    }
  }

  /** The API as a dictionary and its names in insertion order. */
  method BuildApiDict(api: seq<Param>) returns (dict: map<string, Param>, names: seq<string>)
    ensures dict == ApiDict(api)
    ensures forall n :: n in names <==> n in dict
  {
    dict, names := map[], [];
    for i := 0 to |api|
      invariant dict == ApiDict(api[..i])
      invariant forall n :: n in names <==> n in dict
    {
      assert api[..i+1][..i] == api[..i];
      if api[i].name !in dict {
        names := names + [api[i].name];
      }
      dict := dict[api[i].name := api[i]];
    }
    assert api[..|api|] == api;
  }

  /** validate_parameters: the seen parameters and the argument names, defaults added, are compared at the end. An
      error that is not an InvalidArgument leaves the loop at once. */
  method ValidateParameters(w: World, api: seq<Param>, args: seq<Argument>, acc: Accumulator)
    returns (r: Checked<map<string, Value>>)
    ensures r == CheckParameters(w, api, args, acc)
  {
    hide ParamFit, Fitting, BoundValues, ApiDict, AnyEscapes;
    var dict, names := BuildApiDict(api);
    NothingFits(w, dict, args, acc);
    var converted: map<string, Value> := map[];
    var seen: set<string> := {};
    var argumentSet := Names(args);
    var errors: seq<string> := [];
    ghost var done: set<string> := {};
    for i := 0 to |names|
      invariant done <= dict.Keys && forall n :: n in names[..i] <==> n in done
      invariant seen == Fitting(w, dict, done, args, acc)
      invariant Names(args) <= argumentSet <= Names(args) + seen
      invariant seen <= argumentSet
      invariant errors == [] <==> seen == done
      invariant converted == BoundValues(w, dict, done, args, acc)
      invariant !AnyEscapes(w, dict, done, args, acc)
    {
      var name := names[i];
      assert names[..i+1] == names[..i] + [name];
      var outcome, defaulted := ValidateOne(w, dict[name], args, acc);
      if outcome.Escapes? {
        OneEscapes(w, dict, name, args, acc);
        return Raises;
      }
      FittingGrows(w, dict, done, name, args, acc);
      if outcome.Bad? {
        errors := errors + [name];
      } else {
        if outcome.Bound? {
          converted := converted[name := outcome.value];
        }
        if defaulted {
          argumentSet := argumentSet + {name};
        }
        seen := seen + {name};
      }
      done := done + {name};
    }
    assert names[..|names|] == names;
    assert done == dict.Keys;
    if seen != argumentSet {
      errors := errors + ["Too many arguments"];
    }
    r := if errors != [] then Refuses else Accepts(converted);
  }

  lemma NamesAreListed(api: seq<Param>, args: seq<Argument>)
    ensures Names(args) <= ApiDict(api).Keys <==> forall a :: a in args ==> exists p :: p in api && p.name == a.name
  {
    ApiDictKeys(api);
    hide ApiDict;
    if Names(args) <= ApiDict(api).Keys {
      forall a | a in args ensures exists p :: p in api && p.name == a.name {
        assert a.name in Names(args);
      }
    }
  }

  lemma FitsAreBound(w: World, p: Param, args: seq<Argument>, acc: Accumulator)
    ensures var fit := ParamFit(w, p, args, acc);
            !fit.Bad? && !fit.Escapes? ==> (fit.Bound? <==> !(acc == map[] && IsReference(args, p.name)))
  {
    hide GetValue;
  }

  lemma CheckAccepts(w: World, api: seq<Param>, args: seq<Argument>, acc: Accumulator)
    ensures var dict := ApiDict(api);
            CheckParameters(w, api, args, acc).Accepts? <==>
              && Names(args) <= dict.Keys
              && forall n :: n in dict ==>
                   !ParamFit(w, dict[n], args, acc).Bad? && !ParamFit(w, dict[n], args, acc).Escapes?
  {
    hide ApiDict, ParamFit, Names;
    var dict := ApiDict(api);
    if forall n :: n in dict ==> !ParamFit(w, dict[n], args, acc).Bad? && !ParamFit(w, dict[n], args, acc).Escapes? {
      assert Fitting(w, dict, dict.Keys, args, acc) == dict.Keys;
    }
  }

  /** The check raises exactly when some parameter's check does; otherwise it succeeds exactly when every argument is
      named in the API and every parameter fits. A successful check returns all of the API's names, except that
      without an accumulator the unresolved references are left out. */
  lemma CheckIsExact(w: World, api: seq<Param>, args: seq<Argument>, acc: Accumulator)
    ensures CheckParameters(w, api, args, acc).Raises? <==>
              exists n :: n in ApiDict(api) && ParamFit(w, ApiDict(api)[n], args, acc).Escapes?
    ensures CheckParameters(w, api, args, acc).Accepts? <==>
              && (forall a :: a in args ==> exists p :: p in api && p.name == a.name)
              && (forall n :: n in ApiDict(api) ==>
                    !ParamFit(w, ApiDict(api)[n], args, acc).Bad? && !ParamFit(w, ApiDict(api)[n], args, acc).Escapes?)
    ensures CheckParameters(w, api, args, acc).Accepts? ==>
              CheckParameters(w, api, args, acc).value.Keys ==
                set p | p in api && !(acc == map[] && IsReference(args, p.name)) :: p.name
  {
    var dict := ApiDict(api);
    ApiDictKeys(api);
    NamesAreListed(api, args);
    CheckAccepts(w, api, args, acc);
    hide ApiDict, ParamFit, IsReference, Names, Fitting;
    forall n | n in dict { FitsAreBound(w, dict[n], args, acc); }
    if CheckParameters(w, api, args, acc).Accepts? {
      assert BoundValues(w, dict, dict.Keys, args, acc).Keys ==
             set p | p in api && !(acc == map[] && IsReference(args, p.name)) :: p.name;
    }
  }

  predicate IsReference(args: seq<Argument>, name: string)
  {
    var arg := FindArgument(args, name);
    arg.Some? && arg.value.value == Null
  }
}
