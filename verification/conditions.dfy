/** Conditions, their transforms, and nested conditional expressions. */
module Conditions {
  import opened Json
  import opened Elements
  import opened Parameters

  datatype Signal =
    | TransformSuccess(id: Id) | TransformError(id: Id)
    | ConditionSuccess(id: Id) | ConditionError(id: Id)
    | ExpressionTrue(id: Id) | ExpressionFalse(id: Id)

  /** The arguments with the one that receives the data replaced. */
  function WithData(args: seq<Argument>, dataParam: string, data: Value): seq<Argument>
  {
    Others(args, dataParam) + [Argument(dataParam, data, None, [])]
  }

  function Others(args: seq<Argument>, dataParam: string): (r: seq<Argument>)
    ensures forall a :: a in r <==> a in args && a.name != dataParam
  {
    if args == [] then []
    else if args[0].name != dataParam then [args[0]] + Others(args[1..], dataParam)
    else Others(args[1..], dataParam)
  }

  /** What a transform hands on; Burst is an error of its argument check that nothing catches. */
  datatype Transformed = Transformed(data: Value, signal: Signal) | Burst

  /** A transform that fails hands its input on unmodified. */
  function ExecuteTransform(w: World, t: Transform, data: Value, acc: Accumulator): Transformed
  {
    var api := w.transformApi(t.app, t.name);
    match CheckParameters(w, api.params, WithData(t.arguments, api.dataParam, data), acc)
    case Raises => Burst
    case Refuses => Transformed(data, TransformError(t.id))
    case Accepts(args) =>
      match w.runTransform(t.app, t.name, args)
      case None => Transformed(data, TransformError(t.id))
      case Some(v) => Transformed(v, TransformSuccess(t.id))
  }

  datatype Piped = Piped(data: Value, signals: seq<Signal>, raised: bool)

  function Pipeline(w: World, ts: seq<Transform>, data: Value, acc: Accumulator): Piped
  {
    if ts == [] then Piped(data, [], false)
    else
      var before := Pipeline(w, ts[..|ts|-1], data, acc);
      if before.raised then before
      else match ExecuteTransform(w, ts[|ts|-1], before.data, acc)
        case Burst => before.(raised := true)
        case Transformed(v, signal) => Piped(v, before.signals + [signal], false)
  }

  /** Transforms in two groups: the second works on the data that the first hands on, unless that has raised. */
  lemma {:induction false} TransformsInTurn(w: World, xs: seq<Transform>, ys: seq<Transform>, data: Value,
                                            acc: Accumulator)
    ensures var x := Pipeline(w, xs, data, acc);
            var y := Pipeline(w, ys, x.data, acc);
            Pipeline(w, xs + ys, data, acc) == if x.raised then x else Piped(y.data, x.signals + y.signals, y.raised)
    decreases |ys|
  {
    hide ExecuteTransform;
    if ys == [] {
      assert xs + ys == xs;
    } else {
      var n := |ys| - 1;
      assert (xs + ys)[..|xs| + n] == xs + ys[..n];
      TransformsInTurn(w, xs, ys[..n], data, acc);
    }
  }

  lemma OneTransform(w: World, t: Transform, data: Value, acc: Accumulator)
    ensures Pipeline(w, [t], data, acc) ==
            match ExecuteTransform(w, t, data, acc)
            case Burst => Piped(data, [], true)
            case Transformed(v, signal) => Piped(v, [signal], false)
  {
    hide ExecuteTransform;
    assert [t][..0] == [];
  }

  /** The arguments kept are those of other names, in their order. */
  lemma {:induction false} OthersKeepOrder(xs: seq<Argument>, ys: seq<Argument>, dataParam: string)
    ensures Others(xs + ys, dataParam) == Others(xs, dataParam) + Others(ys, dataParam)
    ensures forall a :: Others([a], dataParam) == if a.name == dataParam then [] else [a]
  {
    assert forall a: Argument :: [a][1..] == [];
    if xs == [] {
      assert xs + ys == ys;
    } else {
      assert (xs + ys)[1..] == xs[1..] + ys;
      OthersKeepOrder(xs[1..], ys, dataParam);
    }
  }

  lemma {:induction false} FoundAmong(args: seq<Argument>, last: Argument, name: string)
    ensures FindArgument(args + [last], name) ==
            if FindArgument(args, name).Some? then FindArgument(args, name)
            else if last.name == name then Some(last) else None
  {
    if args != [] {
      assert (args + [last])[1..] == args[1..] + [last];
      FoundAmong(args[1..], last, name);
    } else {
      assert (args + [last])[1..] == [];
    }
  }

  lemma {:induction false} FoundInOthers(args: seq<Argument>, dataParam: string, name: string)
    ensures FindArgument(Others(args, dataParam), name) == if name == dataParam then None else FindArgument(args, name)
  {
    if args != [] {
      FoundInOthers(args[1..], dataParam, name);
      assert ([args[0]] + Others(args[1..], dataParam))[1..] == Others(args[1..], dataParam);
    }
  }

  /** Under the data parameter's name there is the data, whatever argument was given for it, and under every other
      name what was given. */
  lemma DataIsFound(args: seq<Argument>, dataParam: string, data: Value, name: string)
    ensures FindArgument(WithData(args, dataParam, data), name) ==
            if name == dataParam then Some(Argument(dataParam, data, None, [])) else FindArgument(args, name)
  {
    FoundInOthers(args, dataParam, name);
    FoundAmong(Others(args, dataParam), Argument(dataParam, data, None, []), name);
  }

  /** The result of one condition and the signals it sent; raised is an error that nothing catches. */
  datatype Leaf = Leaf(holds: bool, signals: seq<Signal>, raised: bool)

  function EvalCondition(w: World, c: Condition, data: Value, acc: Accumulator): Leaf
  {
    var piped := Pipeline(w, c.transforms, data, acc);
    var api := w.conditionApi(c.app, c.name);
    if piped.raised then Leaf(false, piped.signals, true)
    else match CheckParameters(w, api.params, WithData(c.arguments, api.dataParam, piped.data), acc)
      case Raises => Leaf(false, piped.signals, true)
      case Refuses => Leaf(false, piped.signals + [ConditionError(c.id)], false)
      case Accepts(args) =>
        match w.runCondition(c.app, c.name, args)
        case None => Leaf(false, piped.signals + [ConditionError(c.id)], false)
        case Some(holds) => Leaf(holds != c.negated, piped.signals + [ConditionSuccess(c.id)], false)
  }

  method UpdateArgumentsWithData(args: seq<Argument>, dataParam: string, data: Value) returns (r: seq<Argument>)
    ensures r == WithData(args, dataParam, data)
  {
    r := [];
    for i := 0 to |args|
      invariant Others(args, dataParam) == r + Others(args[i..], dataParam)
    {
      assert args[i..][1..] == args[i+1..];
      if args[i].name != dataParam {
        assert r + ([args[i]] + Others(args[i+1..], dataParam)) == (r + [args[i]]) + Others(args[i+1..], dataParam);
        r := r + [args[i]];
      }
    }
    r := r + [Argument(dataParam, data, None, [])];
  }

  method RunTransform(w: World, t: Transform, data: Value, acc: Accumulator) returns (r: Transformed)
    ensures r == ExecuteTransform(w, t, data, acc)
    ensures var api := w.transformApi(t.app, t.name);
            var checked := CheckParameters(w, api.params, WithData(t.arguments, api.dataParam, data), acc);
            var out := if checked.Accepts? then w.runTransform(t.app, t.name, checked.value) else None;
            && (r.Burst? <==> checked.Raises?)
            && (!checked.Raises? && out.None? ==> r == Transformed(data, TransformError(t.id)))
            && (out.Some? ==> r == Transformed(out.value, TransformSuccess(t.id)))
  {
    var api := w.transformApi(t.app, t.name);
    var arguments := UpdateArgumentsWithData(t.arguments, api.dataParam, data);
    var args := ValidateParameters(w, api.params, arguments, acc);
    if args.Raises? {
      return Burst;
    }
    if args.Refuses? {
      return Transformed(data, TransformError(t.id));
    }
    var result := w.runTransform(t.app, t.name, args.value);
    if result.None? {
      return Transformed(data, TransformError(t.id));
    }
    r := Transformed(result.value, TransformSuccess(t.id));
  }

  method RunTransforms(w: World, ts: seq<Transform>, dataIn: Value, acc: Accumulator) returns (r: Piped)
    ensures r == Pipeline(w, ts, dataIn, acc)
  {
    var data := dataIn;
    var signals: seq<Signal> := [];
    for i := 0 to |ts|
      invariant Pipeline(w, ts[..i], dataIn, acc) == Piped(data, signals, false)
    {
      assert ts[..i+1][..i] == ts[..i];
      var t := RunTransform(w, ts[i], data, acc);
      if t.Burst? {
        RaisedStays(w, ts, dataIn, acc, i + 1);
        return Piped(data, signals, true);
      }
      data, signals := t.data, signals + [t.signal];
    }
    assert ts[..|ts|] == ts;
    r := Piped(data, signals, false);
  }

  lemma {:induction false} RaisedStays(w: World, ts: seq<Transform>, data: Value, acc: Accumulator, n: nat)
    requires n <= |ts| && Pipeline(w, ts[..n], data, acc).raised
    ensures Pipeline(w, ts, data, acc) == Pipeline(w, ts[..n], data, acc)
    decreases |ts|
  {
    if n < |ts| {
      assert ts[..|ts|-1][..n] == ts[..n];
      RaisedStays(w, ts[..|ts|-1], data, acc, n);
    } else {
      assert ts[..n] == ts;
    }
  }

  method ExecuteCondition(w: World, c: Condition, dataIn: Value, acc: Accumulator) returns (r: Leaf)
    ensures r == EvalCondition(w, c, dataIn, acc)
    ensures var piped := Pipeline(w, c.transforms, dataIn, acc);
            var api := w.conditionApi(c.app, c.name);
            var checked := CheckParameters(w, api.params, WithData(c.arguments, api.dataParam, piped.data), acc);
            var verdict := if checked.Accepts? then w.runCondition(c.app, c.name, checked.value) else None;
            && (r.raised <==> piped.raised || checked.Raises?)
            && (!r.raised && verdict.None? ==> !r.holds && r.signals == piped.signals + [ConditionError(c.id)])
            && (!r.raised && verdict.Some? ==>
                  r.holds == (verdict.value != c.negated) && r.signals == piped.signals + [ConditionSuccess(c.id)])
  {
    var piped := RunTransforms(w, c.transforms, dataIn, acc);
    if piped.raised {
      return Leaf(false, piped.signals, true);
    }
    var api := w.conditionApi(c.app, c.name);
    var arguments := UpdateArgumentsWithData(c.arguments, api.dataParam, piped.data);
    var args := ValidateParameters(w, api.params, arguments, acc);
    if args.Raises? {
      return Leaf(false, piped.signals, true);
    }
    if args.Refuses? {
      return Leaf(false, piped.signals + [ConditionError(c.id)], false);
    }
    var ret := w.runCondition(c.app, c.name, args.value);
    if ret.None? {
      return Leaf(false, piped.signals + [ConditionError(c.id)], false);
    }
    r := Leaf(if c.negated then !ret.value else ret.value, piped.signals + [ConditionSuccess(c.id)], false);
  }

  /** The result of an expression, the conditions it executed, in order, and the signals sent; raised says that the
      last of the conditions raised an error that nothing catches, which ends the evaluation at once. */
  datatype Verdict = Verdict(holds: bool, visited: seq<Condition>, signals: seq<Signal>, raised: bool)

  function Size(e: Expression): nat
  {
    |e.conditions| + |e.children|
  }

  /** The i-th thing an expression executes: its conditions come before its child expressions. */
  function EvalPart(e: Expression, i: nat, leaf: Condition -> Leaf): Verdict
    requires i < Size(e)
    decreases e, 0
  {
    if i < |e.conditions| then
      var l := leaf(e.conditions[i]);
      Verdict(l.holds && !l.raised, [e.conditions[i]], l.signals, l.raised)
    else Eval(e.children[i - |e.conditions|], leaf)
  }

  /** Whether the evaluation goes on to the next part: nothing has raised, and neither `all`, `any` nor the xor loop
      stops; `found` says whether the xor loop has already seen a true part. */
  predicate GoesOn(e: Expression, part: Verdict, found: bool)
  {
    && !part.raised
    && !(part.holds && (e.operator.Or? || (e.operator.Xor? && found)))
    && !(!part.holds && e.operator.And?)
  }

  function Scan(e: Expression, i: nat, found: bool, leaf: Condition -> Leaf): Verdict
    requires i <= Size(e)
    decreases e, 1, Size(e) - i
  {
    if i == Size(e) then
      Verdict(match e.operator case And => true case Or => false case Xor => found, [], [], false)
    else
      var part := EvalPart(e, i, leaf);
      if GoesOn(e, part, found) then
        var rest := Scan(e, i + 1, found || part.holds, leaf);
        Verdict(rest.holds, part.visited + rest.visited, part.signals + rest.signals, rest.raised)
      else part.(holds := part.holds && e.operator.Or?)
  }

  function Eval(e: Expression, leaf: Condition -> Leaf): (v: Verdict)
    ensures v.raised ==> !v.holds
    decreases e, 2
  {
    var scanned :=
      if Size(e) == 0 && !e.operator.And? then Verdict(true, [], [], false) else Scan(e, 0, false, leaf);
    if scanned.raised then scanned.(holds := false)
    else
      var holds := scanned.holds != e.negated;
      Verdict(holds, scanned.visited, scanned.signals + [if holds then ExpressionTrue(e.id) else ExpressionFalse(e.id)],
              false)
  }

  /** How many of the parts i and on hold, every one of them judged. */
  ghost function TrueParts(e: Expression, i: nat, leaf: Condition -> Leaf): (n: nat)
    requires i <= Size(e)
    ensures n <= Size(e) - i
    decreases e, 1, Size(e) - i
  {
    if i == Size(e) then 0
    else
      var holds := if i < |e.conditions| then leaf(e.conditions[i]).holds
                   else Meaning(e.children[i - |e.conditions|], leaf);
      TrueParts(e, i + 1, leaf) + if holds then 1 else 0
  }

  /** The meaning of an expression, with no evaluation order. */
  ghost predicate Meaning(e: Expression, leaf: Condition -> Leaf)
    decreases e, 2
  {
    var trues := TrueParts(e, 0, leaf);
    var bare := match e.operator
      case And => trues == Size(e)
      case Or => Size(e) == 0 || trues > 0
      case Xor => Size(e) == 0 || trues == 1;
    bare != e.negated
  }

  lemma {:induction false} ScanIsMeaning(e: Expression, i: nat, found: bool, leaf: Condition -> Leaf)
    requires i <= Size(e) && !Scan(e, i, found, leaf).raised
    ensures Scan(e, i, found, leaf).holds ==
            match e.operator
            case And => TrueParts(e, i, leaf) == Size(e) - i
            case Or => TrueParts(e, i, leaf) > 0
            case Xor => TrueParts(e, i, leaf) == (if found then 0 else 1)
    decreases e, 1, Size(e) - i
  {
    if i < Size(e) {
      var part := EvalPart(e, i, leaf);
      if i >= |e.conditions| {
        EvalIsMeaning(e.children[i - |e.conditions|], leaf);
      }
      if GoesOn(e, part, found) {
        ScanIsMeaning(e, i + 1, found || part.holds, leaf);
      }
    }
  }

  /** Short-circuit evaluation that raises nothing computes the direct meaning, for every tree and every leaf
      valuation, whatever the leaves not visited would have done. */
  lemma {:induction false} EvalIsMeaning(e: Expression, leaf: Condition -> Leaf)
    requires !Eval(e, leaf).raised
    ensures Eval(e, leaf).holds == Meaning(e, leaf)
    decreases e, 2
  {
    if Size(e) != 0 || e.operator.And? {
      ScanIsMeaning(e, 0, false, leaf);
    }
  }

  /** An error ends the evaluation: the last condition visited raised it, and none before. */
  ghost predicate RaisedLast(v: Verdict, leaf: Condition -> Leaf)
  {
    && (v.raised ==> v.visited != [])
    && forall i | 0 <= i < |v.visited| :: leaf(v.visited[i]).raised <==> v.raised && i == |v.visited| - 1
  }

  lemma {:induction false} ScanRaisesLast(e: Expression, i: nat, found: bool, leaf: Condition -> Leaf)
    requires i <= Size(e)
    ensures RaisedLast(Scan(e, i, found, leaf), leaf)
    decreases e, 1, Size(e) - i
  {
    if i < Size(e) {
      var part := EvalPart(e, i, leaf);
      if i >= |e.conditions| {
        EvalRaisesLast(e.children[i - |e.conditions|], leaf);
      }
      if GoesOn(e, part, found) {
        ScanRaisesLast(e, i + 1, found || part.holds, leaf);
      }
    }
  }

  /** An expression raises exactly when a condition it visits does, and that one is the last. */
  lemma {:induction false} EvalRaisesLast(e: Expression, leaf: Condition -> Leaf)
    ensures RaisedLast(Eval(e, leaf), leaf)
    decreases e, 2
  {
    if Size(e) != 0 || e.operator.And? {
      ScanRaisesLast(e, 0, false, leaf);
    }
  }

  ghost predicate Agree(a: Condition -> Leaf, b: Condition -> Leaf, on: seq<Condition>)
  {
    forall c :: c in on ==> a(c) == b(c)
  }

  lemma {:induction false} ScanVisitsDecide(e: Expression, i: nat, found: bool, a: Condition -> Leaf,
                                            b: Condition -> Leaf)
    requires i <= Size(e) && Agree(a, b, Scan(e, i, found, a).visited)
    ensures Scan(e, i, found, b) == Scan(e, i, found, a)
    decreases e, 1, Size(e) - i
  {
    if i < Size(e) {
      var part := EvalPart(e, i, a);
      assert forall c :: c in part.visited ==> c in Scan(e, i, found, a).visited;
      if i < |e.conditions| {
        assert e.conditions[i] in part.visited;
      } else {
        VisitsDecide(e.children[i - |e.conditions|], a, b);
      }
      assert EvalPart(e, i, b) == part;
      if GoesOn(e, part, found) {
        ScanVisitsDecide(e, i + 1, found || part.holds, a, b);
      }
    }
  }

  /** Another valuation that agrees on the conditions actually executed gives the same result, executes the
      same conditions and sends the same signals. */
  lemma {:induction false} VisitsDecide(e: Expression, a: Condition -> Leaf, b: Condition -> Leaf)
    requires Agree(a, b, Eval(e, a).visited)
    ensures Eval(e, b) == Eval(e, a)
    decreases e, 2
  {
    if Size(e) != 0 || e.operator.And? {
      ScanVisitsDecide(e, 0, false, a, b);
    }
  }

  /** The xor loop over the two groups of executables. */
  method ExecuteXor(e: Expression, leaf: Condition -> Leaf) returns (r: Verdict)
    requires e.operator.Xor? && Size(e) != 0
    ensures r == Scan(e, 0, false, leaf)
  {
    var isOneFound := false;
    var visited: seq<Condition> := [];
    var signals: seq<Signal> := [];
    for i := 0 to Size(e)
      invariant Scan(e, 0, false, leaf) == Preceded(visited, signals, Scan(e, i, isOneFound, leaf))
    {
      ghost var rest := Scan(e, i, isOneFound, leaf);
      var part := EvalPart(e, i, leaf);
      if part.raised || (part.holds && isOneFound) {
        return Verdict(false, visited + part.visited, signals + part.signals, part.raised);
      }
      isOneFound := isOneFound || part.holds;
      ghost var next := Scan(e, i + 1, isOneFound, leaf);
      assert visited + rest.visited == (visited + part.visited) + next.visited;
      assert signals + rest.signals == (signals + part.signals) + next.signals;
      visited, signals := visited + part.visited, signals + part.signals;
    }
    r := Verdict(isOneFound, visited, signals, false);
  }

  function Preceded(visited: seq<Condition>, signals: seq<Signal>, rest: Verdict): Verdict
  {
    Verdict(rest.holds, visited + rest.visited, signals + rest.signals, rest.raised)
  }
}
