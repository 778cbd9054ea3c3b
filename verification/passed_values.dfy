/** What the arguments of an app function are checked to: said of the API list, the argument list and the check of one
    value alone. */
module PassedValues {
  import opened Json
  import opened Elements
  import opened Parameters

  /** The parameter at i is the last of its name. */
  ghost predicate LastOfName(api: seq<Param>, i: nat)
  {
    i < |api| && forall j | i < j < |api| :: api[j].name != api[i].name
  }

  /** The argument at k is the first of the name. */
  ghost predicate FirstOfName(args: seq<Argument>, name: string, k: nat)
  {
    k < |args| && args[k].name == name && forall j | 0 <= j < k :: args[j].name != name
  }

  ghost predicate Unnamed(args: seq<Argument>, name: string)
  {
    forall j | 0 <= j < |args| :: args[j].name != name
  }

  /** A reference that there is no accumulator to read for. */
  predicate Unread(arg: Argument, acc: Accumulator)
  {
    acc == map[] && arg.value == Null
  }

  ghost predicate ConvertsTo(w: World, p: Param, arg: Argument, acc: Accumulator, c: Checked<Value>)
  {
    exists v :: GetValue(w, arg, acc) == Some(v) && w.check(p, v) == c
  }

  /** What the parameter is passed with: the conversion of its first argument's value; without an argument that of its
      default, the default itself if the check refuses it, and null if there is none and none is required. */
  ghost predicate PassedAs(w: World, p: Param, args: seq<Argument>, acc: Accumulator, m: map<string, Value>)
  {
    && (forall k: nat | FirstOfName(args, p.name, k) ::
          if Unread(args[k], acc) then p.name !in m
          else p.name in m && ConvertsTo(w, p, args[k], acc, Accepts(m[p.name])))
    && (Unnamed(args, p.name) ==>
          p.name in m && match p.default
          case Some(d) => w.check(p, d) == Accepts(m[p.name]) || (w.check(p, d) == Refuses && m[p.name] == d)
          case None => !p.required && m[p.name] == Null)
  }

  /** Converting the parameter's argument, or its default, raises. */
  ghost predicate RaisesAt(w: World, p: Param, args: seq<Argument>, acc: Accumulator)
  {
    || (exists k: nat ::
          FirstOfName(args, p.name, k) && !Unread(args[k], acc) && ConvertsTo(w, p, args[k], acc, Raises))
    || (Unnamed(args, p.name) && p.default.Some? && w.check(p, p.default.value) == Raises)
  }

  lemma {:induction false} ApiDictLast(api: seq<Param>, i: nat)
    requires LastOfName(api, i)
    ensures api[i].name in ApiDict(api) && ApiDict(api)[api[i].name] == api[i]
  {
    var n := |api| - 1;
    if i < n {
      assert api[n].name != api[i].name;
      ApiDictLast(api[..n], i);
    }
  }

  lemma {:induction false} LastExists(api: seq<Param>, name: string) returns (i: nat)
    requires name in ApiDict(api)
    ensures LastOfName(api, i) && api[i].name == name && ApiDict(api)[name] == api[i]
  {
    var n := |api| - 1;
    if api[n].name == name {
      i := n;
    } else {
      i := LastExists(api[..n], name);
    }
  }

  lemma FindsNone(args: seq<Argument>, name: string)
    ensures FindArgument(args, name) == None <==> Unnamed(args, name)
  {
    if !Unnamed(args, name) {
      var j :| 0 <= j < |args| && args[j].name == name;
      assert args[j] in args;
    }
  }

  lemma {:induction false} FindsFirst(args: seq<Argument>, name: string, k: nat)
    requires FirstOfName(args, name, k)
    ensures FindArgument(args, name) == Some(args[k])
  {
    if k > 0 {
      FindsFirst(args[1..], name, k - 1);
    }
  }

  lemma {:induction false} FirstExists(args: seq<Argument>, name: string) returns (k: nat)
    requires FindArgument(args, name).Some?
    ensures FirstOfName(args, name, k)
  {
    k := 0;
    if args[0].name != name {
      var j := FirstExists(args[1..], name);
      k := j + 1;
    }
  }

  lemma FitMeans(w: World, p: Param, args: seq<Argument>, acc: Accumulator, m: map<string, Value>)
    ensures var fit := ParamFit(w, p, args, acc);
            && (fit.Escapes? <==> RaisesAt(w, p, args, acc))
            && (PassedAs(w, p, args, acc, m) <==>
                  match fit
                  case Bound(v) => p.name in m && m[p.name] == v
                  case Skipped => p.name !in m
                  case _ => false)
  {
    FindsNone(args, p.name);
    if FindArgument(args, p.name).Some? {
      var k := FirstExists(args, p.name);
      FindsFirst(args, p.name, k);
      assert forall j: nat | FirstOfName(args, p.name, j) :: j == k;
      assert !Unnamed(args, p.name);
      assert FindArgument(args, p.name) == Some(args[k]);
      hide FirstOfName, Unnamed, GetValue;
      if Unread(args[k], acc) {
        UnreadIsGot(w, args[k], acc);
      }
    } else {
      assert forall k: nat :: !FirstOfName(args, p.name, k);
    }
  }

  lemma UnreadIsGot(w: World, arg: Argument, acc: Accumulator)
    requires Unread(arg, acc)
    ensures GetValue(w, arg, acc).Some?
  {
  }

  ghost predicate AllPassed(w: World, api: seq<Param>, args: seq<Argument>, acc: Accumulator, m: map<string, Value>)
  {
    forall n :: n in ApiDict(api) ==> PassedAs(w, ApiDict(api)[n], args, acc, m)
  }

  ghost predicate SomeRaises(w: World, api: seq<Param>, args: seq<Argument>, acc: Accumulator)
  {
    exists n :: n in ApiDict(api) && RaisesAt(w, ApiDict(api)[n], args, acc)
  }

  lemma PassedByName(w: World, api: seq<Param>, args: seq<Argument>, acc: Accumulator, m: map<string, Value>)
    ensures AllPassed(w, api, args, acc, m) <==> forall i: nat | LastOfName(api, i) :: PassedAs(w, api[i], args, acc, m)
    ensures SomeRaises(w, api, args, acc) <==> exists i: nat :: LastOfName(api, i) && RaisesAt(w, api[i], args, acc)
  {
    hide PassedAs, RaisesAt, ApiDict;
    forall i: nat | LastOfName(api, i) ensures api[i].name in ApiDict(api) && ApiDict(api)[api[i].name] == api[i] {
      ApiDictLast(api, i);
    }
    forall n | n in ApiDict(api) ensures exists i: nat :: LastOfName(api, i) && ApiDict(api)[n] == api[i] {
      var i := LastExists(api, n);
    }
  }

  lemma NamedInApi(api: seq<Param>)
    ensures forall n :: n in ApiDict(api) <==> exists p :: p in api && p.name == n
  {
    ApiDictKeys(api);
  }

  /** One parameter's fit, as its entry in the result. */
  predicate Entered(fit: Fit, name: string, m: map<string, Value>)
  {
    match fit
    case Bound(v) => name in m && m[name] == v
    case Skipped => name !in m
    case _ => false
  }

  lemma AcceptsByFits(w: World, api: seq<Param>, args: seq<Argument>, acc: Accumulator, m: map<string, Value>)
    ensures var dict := ApiDict(api);
            CheckParameters(w, api, args, acc) == Accepts(m) <==>
              && Names(args) <= dict.Keys && m.Keys <= dict.Keys
              && forall n :: n in dict ==> Entered(ParamFit(w, dict[n], args, acc), n, m)
  {
    var dict := ApiDict(api);
    CheckAccepts(w, api, args, acc);
    hide ApiDict, ParamFit, Names, Fitting;
    if m.Keys <= dict.Keys && forall n :: n in dict ==> Entered(ParamFit(w, dict[n], args, acc), n, m) {
      assert BoundValues(w, dict, dict.Keys, args, acc) == m;
    }
  }

  lemma AllMeans(w: World, api: seq<Param>, args: seq<Argument>, acc: Accumulator, m: map<string, Value>)
    ensures AllPassed(w, api, args, acc, m) <==>
              forall n :: n in ApiDict(api) ==> Entered(ParamFit(w, ApiDict(api)[n], args, acc), n, m)
    ensures SomeRaises(w, api, args, acc) <==>
              exists n :: n in ApiDict(api) && ParamFit(w, ApiDict(api)[n], args, acc).Escapes?
  {
    hide ApiDict, ParamFit, PassedAs, RaisesAt;
    forall n | n in ApiDict(api) {
      FitMeans(w, ApiDict(api)[n], args, acc, m);
    }
  }

  /** The check accepts with given values exactly when every argument is named in the API, every parameter is passed
      with what its argument, its default or its absence makes of it, and nothing else is passed; it raises exactly
      when some conversion does. */
  lemma ValuesArePassed(w: World, api: seq<Param>, args: seq<Argument>, acc: Accumulator, m: map<string, Value>)
    ensures CheckParameters(w, api, args, acc) == Raises <==>
              exists i: nat :: LastOfName(api, i) && RaisesAt(w, api[i], args, acc)
    ensures CheckParameters(w, api, args, acc) == Accepts(m) <==>
              && (forall a :: a in args ==> exists p :: p in api && p.name == a.name)
              && (forall i: nat | LastOfName(api, i) :: PassedAs(w, api[i], args, acc, m))
              && (forall n :: n in m ==> exists p :: p in api && p.name == n)
  {
    PassedByName(w, api, args, acc, m);
    NamesAreListed(api, args);
    NamedInApi(api);
    CheckIsExact(w, api, args, acc);
    AcceptsByFits(w, api, args, acc, m);
    AllMeans(w, api, args, acc, m);
    assert m.Keys <= ApiDict(api).Keys <==> forall n :: n in m ==> n in ApiDict(api);
    hide *;
  }
}
