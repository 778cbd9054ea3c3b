/** The JSON that a workflow's elements are dumped to, and the elements that regenerated JSON stands for. */
module Dumps {
  import opened Json
  import opened Elements
  import opened Regenerate
  import opened References

  // ---------------------------------------------------------------- dumping

  /** The fields of an element: its id, its scalar fields, and the fields with elements nested in them. */
  function Fields(id: Id, scalars: seq<Entry>, nested: seq<Entry>): seq<Entry>
  {
    [Entry("id", Str(id))] + (scalars + nested)
  }

  function Strings(ss: seq<string>): seq<Value>
  {
    if ss == [] then [] else [Str(ss[0])] + Strings(ss[1..])
  }

  function ArgJson(a: Argument): Value
  {
    Dict([Entry("name", Str(a.name))] + ([Entry("value", a.value)] +
         ([Entry("reference", ReferenceValue(a.reference))] + [Entry("selection", List(Strings(a.selection)))])))
  }

  function ArgJsons(args: seq<Argument>): seq<Value>
  {
    if args == [] then [] else [ArgJson(args[0])] + ArgJsons(args[1..])
  }

  function Names(app: string, name: string): seq<Entry>
  {
    [Entry("app_name", Str(app)), Entry("action_name", Str(name))]
  }

  function TransformJson(t: Transform): Value
  {
    Dict(Fields(t.id, Names(t.app, t.name), [Entry("arguments", List(ArgJsons(t.arguments)))]))
  }

  function TransformJsons(ts: seq<Transform>): seq<Value>
  {
    if ts == [] then [] else [TransformJson(ts[0])] + TransformJsons(ts[1..])
  }

  function ConditionJson(c: Condition): Value
  {
    Dict(Fields(c.id, Names(c.app, c.name) + [Entry("is_negated", Bool(c.negated))],
                [Entry("arguments", List(ArgJsons(c.arguments)))]
                    + [Entry("transforms", List(TransformJsons(c.transforms)))]))
  }

  function ConditionJsons(cs: seq<Condition>): seq<Value>
  {
    if cs == [] then [] else [ConditionJson(cs[0])] + ConditionJsons(cs[1..])
  }

  function OperatorName(o: Operator): string
  {
    match o case And => "and" case Or => "or" case Xor => "xor"
  }

  function ExpressionJson(e: Expression): Value
    decreases e, 1
  {
    Dict(Fields(e.id, [Entry("operator", Str(OperatorName(e.operator))), Entry("is_negated", Bool(e.negated))],
                [Entry("conditions", List(ConditionJsons(e.conditions)))] +
                [Entry("child_expressions", List(ExpressionJsons(e.children)))]))
  }

  function ExpressionJsons(es: seq<Expression>): seq<Value>
    decreases es, 0
  {
    if es == [] then [] else [ExpressionJson(es[0])] + ExpressionJsons(es[1..])
  }

  function OptionJson(e: Option<Expression>): Value
  {
    match e case None => Null case Some(x) => ExpressionJson(x)
  }

  function ActionJson(a: Action): Value
  {
    Dict(Fields(a.id, Names(a.app, a.name),
                [Entry("device_id", match a.device case None => Null case Some(d) => ArgJson(d))] +
                ([Entry("arguments", List(ArgJsons(a.arguments)))] + [Entry("trigger", OptionJson(a.trigger))])))
  }

  function EdgeJson(b: Edge): Value
  {
    Dict(Fields(b.id, [Entry("source_id", Str(b.source)), Entry("destination_id", Str(b.destination)),
                       Entry("status", Str(b.status)), Entry("priority", Num(b.priority as real))],
                [Entry("condition", OptionJson(b.condition))]))
  }

  // ---------------------------------------------------------------- the copies

  function CopyArg(a: Argument, mapping: map<Id, Id>): Argument
  {
    match a.reference
    case None => a
    case Some(r) => a.(reference := Some(if r in mapping then mapping[r] else r))
  }

  function CopyArgs(args: seq<Argument>, mapping: map<Id, Id>): (r: seq<Argument>)
    ensures |r| == |args| && forall i | 0 <= i < |args| :: r[i] == CopyArg(args[i], mapping)
  {
    if args == [] then [] else [CopyArg(args[0], mapping)] + CopyArgs(args[1..], mapping)
  }

  function CopyTransform(t: Transform, mapping: map<Id, Id>, supply: nat -> Id, n: nat): Transform
  {
    t.(id := supply(n), arguments := CopyArgs(t.arguments, mapping))
  }

  function CopyTransforms(ts: seq<Transform>, mapping: map<Id, Id>, supply: nat -> Id,
                          n: nat): (d: Drawn<seq<Transform>>)
    ensures |d.value| == |ts|
  {
    if ts == [] then Drawn([], n)
    else
      var rest := CopyTransforms(ts[1..], mapping, supply, n + 1 + |ts[0].arguments|);
      Drawn([CopyTransform(ts[0], mapping, supply, n)] + rest.value, rest.next)
  }

  function CopyCondition(c: Condition, mapping: map<Id, Id>, supply: nat -> Id, n: nat): Drawn<Condition>
  {
    var ts := CopyTransforms(c.transforms, mapping, supply, n + 1 + |c.arguments|);
    Drawn(c.(id := supply(n), arguments := CopyArgs(c.arguments, mapping), transforms := ts.value), ts.next)
  }

  function CopyConditions(cs: seq<Condition>, mapping: map<Id, Id>, supply: nat -> Id,
                          n: nat): (d: Drawn<seq<Condition>>)
    ensures |d.value| == |cs|
  {
    if cs == [] then Drawn([], n)
    else
      var first := CopyCondition(cs[0], mapping, supply, n);
      var rest := CopyConditions(cs[1..], mapping, supply, first.next);
      Drawn([first.value] + rest.value, rest.next)
  }

  function CopyExpression(e: Expression, mapping: map<Id, Id>, supply: nat -> Id, n: nat): Drawn<Expression>
    decreases e, 1
  {
    var cs := CopyConditions(e.conditions, mapping, supply, n + 1);
    var es := CopyExpressions(e.children, mapping, supply, cs.next);
    Drawn(e.(id := supply(n), conditions := cs.value, children := es.value), es.next)
  }

  function CopyExpressions(es: seq<Expression>, mapping: map<Id, Id>, supply: nat -> Id,
                           n: nat): (d: Drawn<seq<Expression>>)
    ensures |d.value| == |es|
    decreases es, 0
  {
    if es == [] then Drawn([], n)
    else
      var first := CopyExpression(es[0], mapping, supply, n);
      var rest := CopyExpressions(es[1..], mapping, supply, first.next);
      Drawn([first.value] + rest.value, rest.next)
  }

  function CopyOption(e: Option<Expression>, mapping: map<Id, Id>, supply: nat -> Id, n: nat): Drawn<Option<Expression>>
  {
    match e
    case None => Drawn(None, n)
    case Some(x) => var d := CopyExpression(x, mapping, supply, n); Drawn(Some(d.value), d.next)
  }

  /** An action whose own id has already been replaced. */
  function CopyAction(a: Action, mapping: map<Id, Id>, supply: nat -> Id, n: nat): Drawn<Action>
  {
    var device := match a.device case None => None case Some(d) => Some(CopyArg(d, mapping));
    var afterDevice := if a.device.Some? then n + 1 else n;
    var trigger := CopyOption(a.trigger, mapping, supply, afterDevice + |a.arguments|);
    Drawn(a.(device := device, arguments := CopyArgs(a.arguments, mapping), trigger := trigger.value), trigger.next)
  }

  /** A branch whose ends have already been replaced. */
  function CopyEdge(b: Edge, mapping: map<Id, Id>, supply: nat -> Id, n: nat): Drawn<Edge>
  {
    var condition := CopyOption(b.condition, mapping, supply, n + 1);
    Drawn(b.(id := supply(n), condition := condition.value), condition.next)
  }

  // ---------------------------------------------------------------- what regenerating a dump requires

  predicate PlainArgs(args: seq<Argument>)
  {
    forall a <- args :: Plain(a.value) && a.reference != Some("")
  }

  predicate PlainCondition(c: Condition)
  {
    PlainArgs(c.arguments) && forall t <- c.transforms :: PlainArgs(t.arguments)
  }

  predicate PlainExpression(e: Expression)
  {
    (forall c <- e.conditions :: PlainCondition(c)) && (forall x <- e.children :: PlainExpression(x))
  }

  predicate PlainOption(e: Option<Expression>)
  {
    e.Some? ==> PlainExpression(e.value)
  }

  predicate PlainAction(a: Action)
  {
    PlainArgs(a.arguments) && (a.device.Some? ==> PlainArgs([a.device.value])) && PlainOption(a.trigger)
  }

  function When<T>(known: bool, d: Drawn<T>): Option<Drawn<T>>
  {
    if known then Some(d) else None
  }

  // ---------------------------------------------------------------- dumps commute with copying

  predicate Nested(e: Entry)
  {
    e.key != "id" && e.key != "reference"
  }

  lemma NestedField(e: Entry, mapping: map<Id, Id>, supply: nat -> Id, rule: IdRule, n: nat)
    requires Nested(e)
    ensures RegenerateFields([e], mapping, supply, rule, n) ==
            match RegenerateValue(e.value, mapping, supply, HoldsArguments(e.key), n)
            case None => None
            case Some(v) => Some(Drawn([Entry(e.key, v.value)], v.next))
  {
    OneField(e, mapping, supply, rule, n);
  }

  /** Regenerating an element replaces its id, keeps its scalars and regenerates what is nested. */
  lemma ElementObject(id: Id, scalars: seq<Entry>, nested: seq<Entry>, mapping: map<Id, Id>, supply: nat -> Id,
                      regenerate: bool, n: nat)
    requires forall i | 0 <= i < |scalars| :: Scalar(scalars[i])
    ensures var rule := if regenerate then FreshId(supply(n)) else KeepId;
            RegenerateObject(Dict(Fields(id, scalars, nested)), mapping, supply, regenerate, false, n) ==
            match RegenerateFields(nested, mapping, supply, rule, if regenerate then n + 1 else n)
            case None => None
            case Some(y) => Some(Drawn(Dict(Fields(if regenerate then supply(n) else id, scalars, y.value)), y.next))
  {
    hide RegenerateFields;
    var rule := if regenerate then FreshId(supply(n)) else KeepId;
    var first := if regenerate then n + 1 else n;
    var own := [Entry("id", Str(id))];
    FieldsConcat(own, scalars + nested, mapping, supply, rule, first);
    OneField(own[0], mapping, supply, rule, first);
    FieldsConcat(scalars, nested, mapping, supply, rule, first);
    ScalarsStay(scalars, mapping, supply, rule, first);
    assert Fields(id, scalars, nested)[0].key == "id";
    assert HasKey(Fields(id, scalars, nested), "id");
  }

  lemma {:induction false} StringsArePlain(ss: seq<string>)
    ensures forall i | 0 <= i < |Strings(ss)| :: !Strings(ss)[i].Dict?
    decreases |ss|
  {
    if ss != [] {
      StringsArePlain(ss[1..]);
    }
  }

  lemma ArgCopied(a: Argument, mapping: map<Id, Id>, supply: nat -> Id, n: nat)
    requires Plain(a.value) && a.reference != Some("")
    ensures RegenerateObject(ArgJson(a), mapping, supply, true, true, n) ==
            When(a.reference.Some? ==> a.reference.value in mapping, Drawn(ArgJson(CopyArg(a, mapping)), n + 1))
  {
    hide RegenerateFields;
    var name, value := Entry("name", Str(a.name)), Entry("value", a.value);
    var reference, selection := Entry("reference", ReferenceValue(a.reference)),
        Entry("selection", List(Strings(a.selection)));
    FieldsConcat([name], [value] + ([reference] + [selection]), mapping, supply, DropId, n + 1);
    FieldsConcat([value], [reference] + [selection], mapping, supply, DropId, n + 1);
    FieldsConcat([reference], [selection], mapping, supply, DropId, n + 1);
    NestedField(name, mapping, supply, DropId, n + 1);
    NestedField(value, mapping, supply, DropId, n + 1);
    OneField(reference, mapping, supply, DropId, n + 1);
    NestedField(selection, mapping, supply, DropId, n + 1);
    PlainValuesSurvive(a.value, mapping, supply, n + 1);
    StringsArePlain(a.selection);
    ItemsStay(Strings(a.selection), mapping, supply, false, n + 1);
  }

  lemma ItemsNil(mapping: map<Id, Id>, supply: nat -> Id, isArguments: bool, n: nat)
    ensures RegenerateItems([], mapping, supply, isArguments, n) == Some(Drawn([], n))
  {
  }

  lemma ItemsCons(x: Value, rest: seq<Value>, mapping: map<Id, Id>, supply: nat -> Id, isArguments: bool, n: nat)
    requires x.Dict?
    ensures RegenerateItems([x] + rest, mapping, supply, isArguments, n) ==
            match RegenerateObject(x, mapping, supply, true, isArguments, n)
            case None => None
            case Some(first) =>
              match RegenerateItems(rest, mapping, supply, isArguments, first.next)
              case None => None
              case Some(more) => Some(Drawn([first.value] + more.value, more.next))
  {
    hide RegenerateObject;
    assert ([x] + rest)[1..] == rest;
  }

  /** The references of a list are those of its first element and of the others. */
  lemma ArgReferencesKnown(args: seq<Argument>, known: set<Id>)
    requires args != []
    ensures ArgReferences(args) <= known <==>
              (args[0].reference.Some? ==> args[0].reference.value in known) && ArgReferences(args[1..]) <= known
  {
    assert args == [args[0]] + args[1..];
    if ArgReferences(args) <= known {
      if args[0].reference.Some? {
        assert args[0].reference.value in ArgReferences(args);
      }
    }
  }

  lemma {:induction false} ArgsCopied(args: seq<Argument>, mapping: map<Id, Id>, supply: nat -> Id, n: nat)
    requires PlainArgs(args)
    ensures RegenerateItems(ArgJsons(args), mapping, supply, true, n) ==
            When(ArgReferences(args) <= mapping.Keys, Drawn(ArgJsons(CopyArgs(args, mapping)), n + |args|))
    decreases |args|
  {
    hide RegenerateObject, RegenerateItems, ArgReferences, Plain;
    if args == [] {
      ItemsNil(mapping, supply, true, n);
      NoReferences();
    } else {
      ArgReferencesKnown(args, mapping.Keys);
      ArgCopied(args[0], mapping, supply, n);
      ArgsCopied(args[1..], mapping, supply, n + 1);
      ItemsCons(ArgJson(args[0]), ArgJsons(args[1..]), mapping, supply, true, n);
    }
  }

  lemma NoReferences()
    ensures ArgReferences([]) == {}
  {
  }

  lemma TransformCopied(t: Transform, mapping: map<Id, Id>, supply: nat -> Id, n: nat)
    requires PlainArgs(t.arguments)
    ensures RegenerateObject(TransformJson(t), mapping, supply, true, false, n) ==
            When(ArgReferences(t.arguments) <= mapping.Keys,
                 Drawn(TransformJson(CopyTransform(t, mapping, supply, n)), n + 1 + |t.arguments|))
  {
    hide RegenerateObject, RegenerateFields, RegenerateItems, ArgReferences, ArgJsons;
    var nested := Entry("arguments", List(ArgJsons(t.arguments)));
    ElementObject(t.id, Names(t.app, t.name), [nested], mapping, supply, true, n);
    NestedField(nested, mapping, supply, FreshId(supply(n)), n + 1);
    ArgsCopied(t.arguments, mapping, supply, n + 1);
  }

  function TransformReferences(ts: seq<Transform>): set<Id>
  {
    set t, r | t in ts && r in ArgReferences(t.arguments) :: r
  }

  lemma {:induction false} TransformsCopied(ts: seq<Transform>, mapping: map<Id, Id>, supply: nat -> Id, n: nat)
    requires forall t :: t in ts ==> PlainArgs(t.arguments)
    ensures var d := CopyTransforms(ts, mapping, supply, n);
            RegenerateItems(TransformJsons(ts), mapping, supply, false, n) ==
            When(TransformReferences(ts) <= mapping.Keys, Drawn(TransformJsons(d.value), d.next))
    decreases |ts|
  {
    hide RegenerateObject, RegenerateItems, ArgReferences, PlainArgs, TransformReferences, CopyTransform;
    TransformReferencesKnown(ts, mapping.Keys);
    if ts == [] {
      ItemsNil(mapping, supply, false, n);
    } else {
      TransformCopied(ts[0], mapping, supply, n);
      TransformsCopied(ts[1..], mapping, supply, n + 1 + |ts[0].arguments|);
      ItemsCons(TransformJson(ts[0]), TransformJsons(ts[1..]), mapping, supply, false, n);
    }
  }

  lemma TransformReferencesKnown(ts: seq<Transform>, known: set<Id>)
    ensures if ts == [] then TransformReferences(ts) == {}
            else TransformReferences(ts) <= known <==>
                   ArgReferences(ts[0].arguments) <= known && TransformReferences(ts[1..]) <= known
  {
    hide ArgReferences;
    if ts != [] {
      assert ts == [ts[0]] + ts[1..];
      assert forall r :: r in ArgReferences(ts[0].arguments) ==> r in TransformReferences(ts);
    }
  }

  lemma ConditionCopied(c: Condition, mapping: map<Id, Id>, supply: nat -> Id, n: nat)
    requires PlainCondition(c)
    ensures var d := CopyCondition(c, mapping, supply, n);
            RegenerateObject(ConditionJson(c), mapping, supply, true, false, n) ==
            When(ConditionReferences(c) <= mapping.Keys, Drawn(ConditionJson(d.value), d.next))
  {
    hide RegenerateObject, RegenerateFields, RegenerateItems, ArgReferences, ArgJsons, TransformJsons, CopyTransforms,
      PlainArgs;
    var scalars := Names(c.app, c.name) + [Entry("is_negated", Bool(c.negated))];
    var args, ts := Entry("arguments", List(ArgJsons(c.arguments))),
        Entry("transforms", List(TransformJsons(c.transforms)));
    var rule := FreshId(supply(n));
    ElementObject(c.id, scalars, [args] + [ts], mapping, supply, true, n);
    FieldsConcat([args], [ts], mapping, supply, rule, n + 1);
    NestedField(args, mapping, supply, rule, n + 1);
    NestedField(ts, mapping, supply, rule, n + 1 + |c.arguments|);
    ArgsCopied(c.arguments, mapping, supply, n + 1);
    TransformsCopied(c.transforms, mapping, supply, n + 1 + |c.arguments|);
    assert ConditionReferences(c) == ArgReferences(c.arguments) + TransformReferences(c.transforms);
  }

  function ConditionsReferences(cs: seq<Condition>): set<Id>
  {
    set c, r | c in cs && r in ConditionReferences(c) :: r
  }

  lemma ConditionsReferencesKnown(cs: seq<Condition>, known: set<Id>)
    ensures if cs == [] then ConditionsReferences(cs) == {}
            else ConditionsReferences(cs) <= known <==>
                   ConditionReferences(cs[0]) <= known && ConditionsReferences(cs[1..]) <= known
  {
    hide ConditionReferences;
    if cs != [] {
      assert cs == [cs[0]] + cs[1..];
      assert forall r :: r in ConditionReferences(cs[0]) ==> r in ConditionsReferences(cs);
    }
  }

  lemma {:induction false} ConditionsCopied(cs: seq<Condition>, mapping: map<Id, Id>, supply: nat -> Id, n: nat)
    requires forall c :: c in cs ==> PlainCondition(c)
    ensures var d := CopyConditions(cs, mapping, supply, n);
            RegenerateItems(ConditionJsons(cs), mapping, supply, false, n) ==
            When(ConditionsReferences(cs) <= mapping.Keys, Drawn(ConditionJsons(d.value), d.next))
    decreases |cs|
  {
    hide RegenerateObject, RegenerateItems, PlainCondition, ConditionsReferences, ConditionReferences, CopyCondition;
    ConditionsReferencesKnown(cs, mapping.Keys);
    if cs == [] {
      ItemsNil(mapping, supply, false, n);
    } else {
      var first := CopyCondition(cs[0], mapping, supply, n);
      ConditionCopied(cs[0], mapping, supply, n);
      ConditionsCopied(cs[1..], mapping, supply, first.next);
      ItemsCons(ConditionJson(cs[0]), ConditionJsons(cs[1..]), mapping, supply, false, n);
    }
  }

  function ExpressionsReferences(es: seq<Expression>): set<Id>
  {
    set e, r | e in es && r in ExpressionReferences(e) :: r
  }

  lemma ExpressionsReferencesKnown(es: seq<Expression>, known: set<Id>)
    ensures if es == [] then ExpressionsReferences(es) == {}
            else ExpressionsReferences(es) <= known <==>
                   ExpressionReferences(es[0]) <= known && ExpressionsReferences(es[1..]) <= known
  {
    hide ExpressionReferences;
    if es != [] {
      assert es == [es[0]] + es[1..];
      assert forall r :: r in ExpressionReferences(es[0]) ==> r in ExpressionsReferences(es);
    }
  }

  lemma {:induction false} ExpressionCopied(e: Expression, mapping: map<Id, Id>, supply: nat -> Id, n: nat)
    requires PlainExpression(e)
    ensures var d := CopyExpression(e, mapping, supply, n);
            RegenerateObject(ExpressionJson(e), mapping, supply, true, false, n) ==
            When(ExpressionReferences(e) <= mapping.Keys, Drawn(ExpressionJson(d.value), d.next))
    decreases e, 1
  {
    hide RegenerateObject, RegenerateFields, RegenerateItems, ConditionJsons, ExpressionJsons, CopyConditions,
      CopyExpressions,
      PlainCondition, OperatorName, ConditionReferences;
    var scalars := [Entry("operator", Str(OperatorName(e.operator))), Entry("is_negated", Bool(e.negated))];
    var cs := Entry("conditions", List(ConditionJsons(e.conditions)));
    var es := Entry("child_expressions", List(ExpressionJsons(e.children)));
    var rule := FreshId(supply(n));
    var mid := CopyConditions(e.conditions, mapping, supply, n + 1).next;
    ElementObject(e.id, scalars, [cs] + [es], mapping, supply, true, n);
    FieldsConcat([cs], [es], mapping, supply, rule, n + 1);
    NestedField(cs, mapping, supply, rule, n + 1);
    NestedField(es, mapping, supply, rule, mid);
    ConditionsCopied(e.conditions, mapping, supply, n + 1);
    ExpressionsCopied(e.children, mapping, supply, mid);
    assert ExpressionReferences(e) == ConditionsReferences(e.conditions) + ExpressionsReferences(e.children);
  }

  lemma {:induction false} ExpressionsCopied(es: seq<Expression>, mapping: map<Id, Id>, supply: nat -> Id, n: nat)
    requires forall e :: e in es ==> PlainExpression(e)
    ensures var d := CopyExpressions(es, mapping, supply, n);
            RegenerateItems(ExpressionJsons(es), mapping, supply, false, n) ==
            When(ExpressionsReferences(es) <= mapping.Keys, Drawn(ExpressionJsons(d.value), d.next))
    decreases es, 0
  {
    hide RegenerateObject, RegenerateItems, PlainExpression, ExpressionsReferences, ExpressionReferences,
      CopyExpression;
    ExpressionsReferencesKnown(es, mapping.Keys);
    if es == [] {
      ItemsNil(mapping, supply, false, n);
    } else {
      var first := CopyExpression(es[0], mapping, supply, n);
      ExpressionCopied(es[0], mapping, supply, n);
      ExpressionsCopied(es[1..], mapping, supply, first.next);
      ItemsCons(ExpressionJson(es[0]), ExpressionJsons(es[1..]), mapping, supply, false, n);
    }
  }

  lemma OptionCopied(e: Option<Expression>, mapping: map<Id, Id>, supply: nat -> Id, n: nat)
    requires PlainOption(e)
    ensures var d := CopyOption(e, mapping, supply, n);
            RegenerateValue(OptionJson(e), mapping, supply, false, n) ==
            When(OptionReferences(e) <= mapping.Keys, Drawn(OptionJson(d.value), d.next))
  {
    hide RegenerateObject, ExpressionReferences, CopyExpression, PlainExpression;
    if e.Some? {
      ExpressionCopied(e.value, mapping, supply, n);
    }
  }

  lemma DeviceCopied(d: Option<Argument>, mapping: map<Id, Id>, supply: nat -> Id, n: nat)
    requires d.Some? ==> PlainArgs([d.value])
    ensures RegenerateValue(match d case None => Null case Some(a) => ArgJson(a), mapping, supply, true, n) ==
            match d
            case None => Some(Drawn(Null, n))
            case Some(a) => When(ArgReferences([a]) <= mapping.Keys, Drawn(ArgJson(CopyArg(a, mapping)), n + 1))
  {
    hide RegenerateObject, ArgReferences;
    if d.Some? {
      assert d.value in [d.value];
      ArgCopied(d.value, mapping, supply, n);
      ArgReferencesKnown([d.value], mapping.Keys);
      NoReferences();
      assert [d.value][1..] == [];
    }
  }

  /** An action is regenerated with its own id kept: that was replaced before. */
  lemma ActionCopied(a: Action, mapping: map<Id, Id>, supply: nat -> Id, n: nat)
    requires PlainAction(a)
    ensures var d := CopyAction(a, mapping, supply, n);
            RegenerateObject(ActionJson(a), mapping, supply, false, false, n) ==
            When(ActionReferences(a) <= mapping.Keys, Drawn(ActionJson(d.value), d.next))
  {
    hide RegenerateObject, RegenerateFields, RegenerateItems, RegenerateValue, ArgJsons, ArgJson, CopyOption,
      ArgReferences,
      OptionReferences, PlainArgs, PlainOption, OptionJson;
    var device := Entry("device_id", match a.device case None => Null case Some(d) => ArgJson(d));
    var args, trigger := Entry("arguments", List(ArgJsons(a.arguments))), Entry("trigger", OptionJson(a.trigger));
    var n1 := if a.device.Some? then n + 1 else n;
    ElementObject(a.id, Names(a.app, a.name), [device] + ([args] + [trigger]), mapping, supply, false, n);
    FieldsConcat([device], [args] + [trigger], mapping, supply, KeepId, n);
    FieldsConcat([args], [trigger], mapping, supply, KeepId, n1);
    NestedField(device, mapping, supply, KeepId, n);
    NestedField(args, mapping, supply, KeepId, n1);
    NestedField(trigger, mapping, supply, KeepId, n1 + |a.arguments|);
    DeviceCopied(a.device, mapping, supply, n);
    ListValue(ArgJsons(a.arguments), mapping, supply, true, n1);
    ArgsCopied(a.arguments, mapping, supply, n1);
    OptionCopied(a.trigger, mapping, supply, n1 + |a.arguments|);
  }

  lemma ListValue(items: seq<Value>, mapping: map<Id, Id>, supply: nat -> Id, isArguments: bool, n: nat)
    ensures RegenerateValue(List(items), mapping, supply, isArguments, n) ==
            match RegenerateItems(items, mapping, supply, isArguments, n)
            case None => None
            case Some(d) => Some(Drawn(List(d.value), d.next))
  {
  }

  lemma EdgeCopied(b: Edge, mapping: map<Id, Id>, supply: nat -> Id, n: nat)
    requires PlainOption(b.condition)
    ensures var d := CopyEdge(b, mapping, supply, n);
            RegenerateObject(EdgeJson(b), mapping, supply, true, false, n) ==
            When(OptionReferences(b.condition) <= mapping.Keys, Drawn(EdgeJson(d.value), d.next))
  {
    hide RegenerateObject, RegenerateFields, RegenerateValue, CopyOption, OptionReferences, PlainOption, OptionJson;
    var scalars := [Entry("source_id", Str(b.source)), Entry("destination_id", Str(b.destination)),
                    Entry("status", Str(b.status)), Entry("priority", Num(b.priority as real))];
    var condition := Entry("condition", OptionJson(b.condition));
    ElementObject(b.id, scalars, [condition], mapping, supply, true, n);
    NestedField(condition, mapping, supply, FreshId(supply(n)), n + 1);
    OptionCopied(b.condition, mapping, supply, n + 1);
  }
}
