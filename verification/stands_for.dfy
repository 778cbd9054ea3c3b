/** A dump determines its workflow: nothing that a run reads is lost in it. */
module StandsFor {
  import opened Json
  import opened Elements
  import opened Dumps
  import opened Copying

  lemma {:induction false} SameStrings(a: seq<string>, b: seq<string>)
    requires Strings(a) == Strings(b)
    ensures a == b
  {
    if a != [] && b != [] {
      assert Strings(a)[0] == Str(a[0]) && Strings(a)[1..] == Strings(a[1..]);
      assert Strings(b)[0] == Str(b[0]) && Strings(b)[1..] == Strings(b[1..]);
      SameStrings(a[1..], b[1..]);
      assert a == [a[0]] + a[1..] && b == [b[0]] + b[1..];
    }
  }

  lemma SameArgument(a: Argument, b: Argument)
    requires ArgJson(a) == ArgJson(b)
    ensures a == b
  {
    var x, y := ArgJson(a).entries, ArgJson(b).entries;
    assert x[0].value == Str(a.name) && x[1].value == a.value && x[2].value == ReferenceValue(a.reference)
      && x[3].value == List(Strings(a.selection));
    assert y[0].value == Str(b.name) && y[1].value == b.value && y[2].value == ReferenceValue(b.reference)
      && y[3].value == List(Strings(b.selection));
    SameStrings(a.selection, b.selection);
  }

  lemma {:induction false} SameArguments(a: seq<Argument>, b: seq<Argument>)
    requires ArgJsons(a) == ArgJsons(b)
    ensures a == b
  {
    hide ArgJson;
    if a != [] && b != [] {
      assert ArgJsons(a)[0] == ArgJson(a[0]) && ArgJsons(a)[1..] == ArgJsons(a[1..]);
      assert ArgJsons(b)[0] == ArgJson(b[0]) && ArgJsons(b)[1..] == ArgJsons(b[1..]);
      SameArgument(a[0], b[0]);
      SameArguments(a[1..], b[1..]);
      assert a == [a[0]] + a[1..] && b == [b[0]] + b[1..];
    }
  }

  /** Equal fields mean equal ids, scalars and nested fields. */
  lemma SameFields(id: Id, scalars: seq<Entry>, nested: seq<Entry>, id': Id, scalars': seq<Entry>, nested': seq<Entry>)
    requires Fields(id, scalars, nested) == Fields(id', scalars', nested') && |scalars| == |scalars'|
    ensures id == id' && scalars == scalars' && nested == nested'
  {
    var x, y := Fields(id, scalars, nested), Fields(id', scalars', nested');
    assert x[0] == Entry("id", Str(id)) && y[0] == Entry("id", Str(id'));
    assert x[1..] == scalars + nested && y[1..] == scalars' + nested';
    assert x[1..][..|scalars|] == scalars && y[1..][..|scalars'|] == scalars';
    assert x[1..][|scalars|..] == nested && y[1..][|scalars'|..] == nested';
  }

  lemma SameTransform(a: Transform, b: Transform)
    requires TransformJson(a) == TransformJson(b)
    ensures a == b
  {
    hide ArgJsons;
    SameFields(a.id, Dumps.Names(a.app, a.name), [Entry("arguments", List(ArgJsons(a.arguments)))],
                 b.id, Dumps.Names(b.app, b.name), [Entry("arguments", List(ArgJsons(b.arguments)))]);
    SameNames(a.app, a.name, b.app, b.name);
    assert [Entry("arguments", List(ArgJsons(a.arguments)))][0] == [Entry("arguments", List(ArgJsons(b.arguments)))][0];
    SameArguments(a.arguments, b.arguments);
  }

  lemma SameNames(app: string, name: string, app': string, name': string)
    requires Dumps.Names(app, name) == Dumps.Names(app', name')
    ensures app == app' && name == name'
  {
    assert Dumps.Names(app, name)[0].value == Str(app) && Dumps.Names(app, name)[1].value == Str(name);
    assert Dumps.Names(app', name')[0].value == Str(app') && Dumps.Names(app', name')[1].value == Str(name');
  }

  lemma {:induction false} SameTransforms(a: seq<Transform>, b: seq<Transform>)
    requires TransformJsons(a) == TransformJsons(b)
    ensures a == b
  {
    hide TransformJson;
    if a != [] && b != [] {
      assert TransformJsons(a)[0] == TransformJson(a[0]) && TransformJsons(a)[1..] == TransformJsons(a[1..]);
      assert TransformJsons(b)[0] == TransformJson(b[0]) && TransformJsons(b)[1..] == TransformJsons(b[1..]);
      SameTransform(a[0], b[0]);
      SameTransforms(a[1..], b[1..]);
      assert a == [a[0]] + a[1..] && b == [b[0]] + b[1..];
    }
  }

  lemma SamePair(x: Entry, y: Entry, x': Entry, y': Entry)
    requires [x] + [y] == [x'] + [y']
    ensures x == x' && y == y'
  {
    assert ([x] + [y])[0] == x && ([x] + [y])[1] == y && ([x'] + [y'])[0] == x' && ([x'] + [y'])[1] == y';
  }

  lemma SameCondition(a: Condition, b: Condition)
    requires ConditionJson(a) == ConditionJson(b)
    ensures a == b
  {
    hide ArgJsons, TransformJsons;
    var args, args' := Entry("arguments", List(ArgJsons(a.arguments))), Entry("arguments", List(ArgJsons(b.arguments)));
    var ts, ts' := Entry("transforms", List(TransformJsons(a.transforms))),
        Entry("transforms", List(TransformJsons(b.transforms)));
    var own, own' := Entry("is_negated", Bool(a.negated)), Entry("is_negated", Bool(b.negated));
    SameFields(a.id, Dumps.Names(a.app, a.name) + [own], [args] + [ts], b.id, Dumps.Names(b.app, b.name) + [own'],
               [args'] + [ts']);
    assert (Dumps.Names(a.app, a.name) + [own])[..2] == Dumps.Names(a.app, a.name);
    assert (Dumps.Names(b.app, b.name) + [own'])[..2] == Dumps.Names(b.app, b.name);
    assert (Dumps.Names(a.app, a.name) + [own])[2] == own && (Dumps.Names(b.app, b.name) + [own'])[2] == own';
    SameNames(a.app, a.name, b.app, b.name);
    SamePair(args, ts, args', ts');
    SameArguments(a.arguments, b.arguments);
    SameTransforms(a.transforms, b.transforms);
  }

  lemma {:induction false} SameConditions(a: seq<Condition>, b: seq<Condition>)
    requires ConditionJsons(a) == ConditionJsons(b)
    ensures a == b
  {
    hide ConditionJson;
    if a != [] && b != [] {
      assert ConditionJsons(a)[0] == ConditionJson(a[0]) && ConditionJsons(a)[1..] == ConditionJsons(a[1..]);
      assert ConditionJsons(b)[0] == ConditionJson(b[0]) && ConditionJsons(b)[1..] == ConditionJsons(b[1..]);
      SameCondition(a[0], b[0]);
      SameConditions(a[1..], b[1..]);
      assert a == [a[0]] + a[1..] && b == [b[0]] + b[1..];
    }
  }

  lemma SameOperator(o: Operator, o': Operator)
    requires OperatorName(o) == OperatorName(o')
    ensures o == o'
  {
    assert OperatorName(o)[0] == OperatorName(o')[0];
  }

  lemma {:induction false} SameExpression(a: Expression, b: Expression)
    requires ExpressionJson(a) == ExpressionJson(b)
    ensures a == b
    decreases a, 1
  {
    hide ConditionJsons, ExpressionJsons, OperatorName;
    var op, op' := Entry("operator", Str(OperatorName(a.operator))), Entry("operator", Str(OperatorName(b.operator)));
    var own, own' := Entry("is_negated", Bool(a.negated)), Entry("is_negated", Bool(b.negated));
    var cs, cs' := Entry("conditions", List(ConditionJsons(a.conditions))),
        Entry("conditions", List(ConditionJsons(b.conditions)));
    var es, es' := Entry("child_expressions", List(ExpressionJsons(a.children))),
        Entry("child_expressions", List(ExpressionJsons(b.children)));
    SameFields(a.id, [op, own], [cs] + [es], b.id, [op', own'], [cs'] + [es']);
    assert [op, own][0] == op && [op', own'][0] == op' && [op, own][1] == own && [op', own'][1] == own';
    SamePair(cs, es, cs', es');
    SameOperator(a.operator, b.operator);
    SameConditions(a.conditions, b.conditions);
    SameExpressions(a.children, b.children);
  }

  lemma {:induction false} SameExpressions(a: seq<Expression>, b: seq<Expression>)
    requires ExpressionJsons(a) == ExpressionJsons(b)
    ensures a == b
    decreases a, 0
  {
    hide ExpressionJson;
    if a != [] && b != [] {
      assert ExpressionJsons(a)[0] == ExpressionJson(a[0]) && ExpressionJsons(a)[1..] == ExpressionJsons(a[1..]);
      assert ExpressionJsons(b)[0] == ExpressionJson(b[0]) && ExpressionJsons(b)[1..] == ExpressionJsons(b[1..]);
      SameExpression(a[0], b[0]);
      SameExpressions(a[1..], b[1..]);
      assert a == [a[0]] + a[1..] && b == [b[0]] + b[1..];
    }
  }

  lemma SameOption(a: Option<Expression>, b: Option<Expression>)
    requires OptionJson(a) == OptionJson(b)
    ensures a == b
  {
    if a.Some? && b.Some? {
      SameExpression(a.value, b.value);
    }
  }

  function DeviceJson(d: Option<Argument>): Value
  {
    match d case None => Null case Some(a) => ArgJson(a)
  }

  lemma SameAction(a: Action, b: Action)
    requires ActionJson(a) == ActionJson(b)
    ensures a == b
  {
    hide ArgJsons, ArgJson, OptionJson;
    var d, d' := Entry("device_id", DeviceJson(a.device)), Entry("device_id", DeviceJson(b.device));
    var args, args' := Entry("arguments", List(ArgJsons(a.arguments))), Entry("arguments", List(ArgJsons(b.arguments)));
    var t, t' := Entry("trigger", OptionJson(a.trigger)), Entry("trigger", OptionJson(b.trigger));
    SameFields(a.id, Dumps.Names(a.app, a.name), [d] + ([args] + [t]), b.id, Dumps.Names(b.app, b.name),
               [d'] + ([args'] + [t']));
    SameNames(a.app, a.name, b.app, b.name);
    assert ([d] + ([args] + [t]))[0] == d && ([d'] + ([args'] + [t']))[0] == d';
    assert ([d] + ([args] + [t]))[1..] == [args] + [t] && ([d'] + ([args'] + [t']))[1..] == [args'] + [t'];
    SamePair(args, t, args', t');
    SameArguments(a.arguments, b.arguments);
    SameOption(a.trigger, b.trigger);
    SameDevice(a.device, b.device);
  }

  lemma SameDevice(a: Option<Argument>, b: Option<Argument>)
    requires DeviceJson(a) == DeviceJson(b)
    ensures a == b
  {
    if a.Some? && b.Some? {
      SameArgument(a.value, b.value);
    }
  }

  lemma SameEdge(a: Edge, b: Edge)
    requires EdgeJson(a) == EdgeJson(b)
    ensures a == b
  {
    hide OptionJson;
    var x := [Entry("source_id", Str(a.source)), Entry("destination_id", Str(a.destination)),
              Entry("status", Str(a.status)), Entry("priority", Num(a.priority as real))];
    var y := [Entry("source_id", Str(b.source)), Entry("destination_id", Str(b.destination)),
              Entry("status", Str(b.status)), Entry("priority", Num(b.priority as real))];
    var c, c' := Entry("condition", OptionJson(a.condition)), Entry("condition", OptionJson(b.condition));
    SameFields(a.id, x, [c], b.id, y, [c']);
    assert x[0] == y[0] && x[1] == y[1] && x[2] == y[2] && x[3] == y[3];
    assert [c][0] == [c'][0];
    SameOption(a.condition, b.condition);
  }

  /** No two workflows have the same dump: the JSON stands for exactly one. */
  lemma DumpIsInjective(f: Workflow, g: Workflow)
    requires Dump(f) == Dump(g)
    ensures f == g
  {
    hide ActionJson, EdgeJson;
    forall i | 0 <= i < |f.actions| ensures f.actions[i] == g.actions[i] {
      assert ActionJsons(f.actions)[i] == ActionJsons(g.actions)[i];
      SameAction(f.actions[i], g.actions[i]);
    }
    forall i | 0 <= i < |f.branches| ensures f.branches[i] == g.branches[i] {
      assert EdgeJsons(f.branches)[i] == EdgeJsons(g.branches)[i];
      SameEdge(f.branches[i], g.branches[i]);
    }
  }
}
