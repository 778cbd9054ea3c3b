/** Which workflows come through copying as their typed copies: exactly the closed ones whose argument values are
    plain. */
module PlainCopies {
  import opened Json
  import opened Elements
  import opened Regenerate
  import opened Dumps
  import opened Copying

  // ---------------------------------------------------------------- values

  /** The value already holds an id that is still to be drawn, as its own or as that of an object in it. */
  ghost predicate Stamped(v: Value, supply: nat -> Id)
  {
    exists k: nat ::
      match v
      case Dict(entries) => Entry("id", Str(supply(k))) in entries
      case List(items) => exists i ::
          0 <= i < |items| && items[i].Dict? && Entry("id", Str(supply(k))) in items[i].entries
      case _ => false
  }

  lemma {:induction false} FieldsHoldId(es: seq<Entry>, mapping: map<Id, Id>, supply: nat -> Id, id: Id, n: nat)
    requires HasKey(es, "id") && RegenerateFields(es, mapping, supply, FreshId(id), n).Some?
    ensures Entry("id", Str(id)) in RegenerateFields(es, mapping, supply, FreshId(id), n).value.value
    decreases es
  {
    hide RegenerateValue;
    var i :| 0 <= i < |es| && es[i].key == "id";
    var field := RegenerateField(es[0], mapping, supply, FreshId(id), n).value;
    var rest := RegenerateFields(es[1..], mapping, supply, FreshId(id), field.next).value;
    if es[0].key == "id" {
      assert Entry("id", Str(id)) in field.value;
    } else {
      assert es[1..][i-1].key == "id";
      FieldsHoldId(es[1..], mapping, supply, id, field.next);
    }
  }

  /** An object that is regenerated holds the id drawn for it. */
  lemma ObjectHoldsId(j: Value, mapping: map<Id, Id>, supply: nat -> Id, n: nat)
    requires j.Dict?
    ensures var r := RegenerateObject(j, mapping, supply, true, false, n);
            r.Some? ==> r.value.value.Dict? && Entry("id", Str(supply(n))) in r.value.value.entries
  {
    var r := RegenerateObject(j, mapping, supply, true, false, n);
    if r.Some? && HasKey(j.entries, "id") {
      FieldsHoldId(j.entries, mapping, supply, supply(n), n + 1);
    }
  }

  lemma {:induction false} ItemsHoldIds(items: seq<Value>, mapping: map<Id, Id>, supply: nat -> Id, n: nat, i: nat)
    requires i < |items| && items[i].Dict? && RegenerateItems(items, mapping, supply, false, n).Some?
    ensures var r := RegenerateItems(items, mapping, supply, false, n).value.value;
            i < |r| && r[i].Dict? && exists k: nat :: Entry("id", Str(supply(k))) in r[i].entries
    decreases items
  {
    hide RegenerateObject;
    var first := (if items[0].Dict? then RegenerateObject(items[0], mapping, supply, true, false, n)
                  else Some(Drawn(items[0], n))).value;
    if i == 0 {
      ObjectHoldsId(items[0], mapping, supply, n);
    } else {
      ItemsHoldIds(items[1..], mapping, supply, first.next, i - 1);
    }
  }

  /** A value that holds no id still to be drawn comes through unchanged exactly when it is plain. */
  lemma UnchangedExactlyWhenPlain(v: Value, mapping: map<Id, Id>, supply: nat -> Id, n: nat)
    requires !Stamped(v, supply)
    ensures (exists d :: RegenerateValue(v, mapping, supply, false, n) == Some(d) && d.value == v) <==> Plain(v)
  {
    if Plain(v) {
      PlainValuesSurvive(v, mapping, supply, n);
      assert RegenerateValue(v, mapping, supply, false, n) == Some(Drawn(v, n));
    } else if RegenerateValue(v, mapping, supply, false, n).Some? {
      match v {
        case Dict(_) => ObjectHoldsId(v, mapping, supply, n);
        case List(items) =>
          var i :| 0 <= i < |items| && items[i].Dict?;
          ItemsHoldIds(items, mapping, supply, n, i);
        case _ =>
      }
    }
  }

  // ---------------------------------------------------------------- the arguments of an element

  function ArgumentsOf(args: seq<Argument>): set<Argument>
  {
    set a | a in args
  }

  function TransformArguments(ts: seq<Transform>): set<Argument>
  {
    set t, a | t in ts && a in t.arguments :: a
  }

  function ConditionArguments(c: Condition): set<Argument>
  {
    ArgumentsOf(c.arguments) + TransformArguments(c.transforms)
  }

  function ConditionsArguments(cs: seq<Condition>): set<Argument>
  {
    set c, a | c in cs && a in ConditionArguments(c) :: a
  }

  function ExpressionArguments(e: Expression): set<Argument>
    decreases e, 1
  {
    ConditionsArguments(e.conditions) + ExpressionsArguments(e.children)
  }

  function ExpressionsArguments(es: seq<Expression>): set<Argument>
    decreases es, 0
  {
    set x, a | x in es && a in ExpressionArguments(x) :: a
  }

  function OptionArguments(e: Option<Expression>): set<Argument>
  {
    match e case None => {} case Some(x) => ExpressionArguments(x)
  }

  function ActionArguments(a: Action): set<Argument>
  {
    ArgumentsOf(a.arguments) + OptionArguments(a.trigger) + match a.device case None => {} case Some(d) => {d}
  }

  /** No reference is the empty string, and no value holds an id that is still to be drawn. */
  ghost predicate Unstamped(args: set<Argument>, supply: nat -> Id)
  {
    forall a :: a in args ==> a.reference != Some("") && !Stamped(a.value, supply)
  }

  /** The regeneration came to the given value. */
  predicate Yields<T(==)>(r: Option<Drawn<T>>, value: T)
  {
    r.Some? && r.value.value == value
  }

  // ---------------------------------------------------------------- from the copy back to plain values

  lemma FieldsAreEqual(a: Id, b: Id, scalars: seq<Entry>, x: seq<Entry>, y: seq<Entry>)
    requires Fields(a, scalars, x) == Fields(b, scalars, y)
    ensures x == y
  {
    assert Fields(a, scalars, x)[1..] == scalars + x && Fields(b, scalars, y)[1..] == scalars + y;
    assert (scalars + x)[|scalars|..] == x && (scalars + y)[|scalars|..] == y;
  }

  lemma ArgYields(a: Argument, mapping: map<Id, Id>, supply: nat -> Id, n: nat)
    requires a.reference != Some("") && !Stamped(a.value, supply)
    requires Yields(RegenerateObject(ArgJson(a), mapping, supply, true, true, n), ArgJson(CopyArg(a, mapping)))
    ensures Plain(a.value)
  {
    hide RegenerateFields, RegenerateValue, Plain, Stamped;
    var name, value := Entry("name", Str(a.name)), Entry("value", a.value);
    var reference, selection := Entry("reference", ReferenceValue(a.reference)),
        Entry("selection", List(Strings(a.selection)));
    var more := [value] + ([reference] + [selection]);
    FieldsConcat([name], more, mapping, supply, DropId, n + 1);
    FieldsConcat([value], [reference] + [selection], mapping, supply, DropId, n + 1);
    NestedField(name, mapping, supply, DropId, n + 1);
    NestedField(value, mapping, supply, DropId, n + 1);
    StringStays(a.name, mapping, supply, n + 1);
    UnchangedExactlyWhenPlain(a.value, mapping, supply, n + 1);
    assert RegenerateObject(ArgJson(a), mapping, supply, true, true, n).value.value.entries[1].value == a.value;
  }

  lemma StringStays(s: string, mapping: map<Id, Id>, supply: nat -> Id, n: nat)
    ensures RegenerateValue(Str(s), mapping, supply, false, n) == Some(Drawn(Str(s), n))
  {
  }

  lemma ConsYields(x: Value, y: Value, xs: seq<Value>, ys: seq<Value>, mapping: map<Id, Id>, supply: nat -> Id,
                   isArguments: bool, n: nat)
    requires x.Dict? && Yields(RegenerateItems([x] + xs, mapping, supply, isArguments, n), [y] + ys)
    ensures var first := RegenerateObject(x, mapping, supply, true, isArguments, n);
            Yields(first, y) && Yields(RegenerateItems(xs, mapping, supply, isArguments, first.value.next), ys)
  {
    hide RegenerateObject, RegenerateItems;
    ItemsCons(x, xs, mapping, supply, isArguments, n);
    var first := RegenerateObject(x, mapping, supply, true, isArguments, n).value;
    var more := RegenerateItems(xs, mapping, supply, isArguments, first.next).value;
    assert ([first.value] + more.value)[0] == first.value && ([first.value] + more.value)[1..] == more.value;
    assert ([y] + ys)[0] == y && ([y] + ys)[1..] == ys;
  }

  lemma {:induction false} ArgsYield(args: seq<Argument>, mapping: map<Id, Id>, supply: nat -> Id, n: nat)
    requires Unstamped(ArgumentsOf(args), supply)
    requires Yields(RegenerateItems(ArgJsons(args), mapping, supply, true, n), ArgJsons(CopyArgs(args, mapping)))
    ensures PlainArgs(args)
    decreases |args|
  {
    hide RegenerateObject, RegenerateItems, Plain, Stamped, ArgJson;
    if args != [] {
      assert args == [args[0]] + args[1..];
      ArgIsObject(args[0]);
      ConsYields(ArgJson(args[0]), ArgJson(CopyArg(args[0], mapping)), ArgJsons(args[1..]),
                 ArgJsons(CopyArgs(args[1..], mapping)), mapping, supply, true, n);
      ArgYields(args[0], mapping, supply, n);
      ArgCopied(args[0], mapping, supply, n);
      ArgsYield(args[1..], mapping, supply, n + 1);
    }
  }

  lemma ArgIsObject(a: Argument)
    ensures ArgJson(a).Dict?
  {
  }

  lemma ElementYields(id: Id, newId: Id, scalars: seq<Entry>, nested: seq<Entry>, copied: seq<Entry>,
                      mapping: map<Id, Id>,
                      supply: nat -> Id, regenerate: bool, n: nat)
    requires forall i | 0 <= i < |scalars| :: Scalar(scalars[i])
    requires Yields(RegenerateObject(Dict(Fields(id, scalars, nested)), mapping, supply, regenerate, false, n),
                    Dict(Fields(newId, scalars, copied)))
    ensures Yields(RegenerateFields(nested, mapping, supply, if regenerate then FreshId(supply(n)) else KeepId,
                                    if regenerate then n + 1 else n), copied)
  {
    hide RegenerateObject, RegenerateFields, Fields;
    ElementObject(id, scalars, nested, mapping, supply, regenerate, n);
    var y := RegenerateFields(nested, mapping, supply, if regenerate then FreshId(supply(n)) else KeepId,
                              if regenerate then n + 1 else n).value;
    FieldsAreEqual(if regenerate then supply(n) else id, newId, scalars, y.value, copied);
  }

  lemma FieldYields(e: Entry, v: Value, rest: seq<Entry>, copied: seq<Entry>, mapping: map<Id, Id>, supply: nat -> Id,
                    rule: IdRule, n: nat)
    requires Nested(e) && Yields(RegenerateFields([e] + rest, mapping, supply, rule, n), [Entry(e.key, v)] + copied)
    ensures var first := RegenerateValue(e.value, mapping, supply, HoldsArguments(e.key), n);
            Yields(first, v) && Yields(RegenerateFields(rest, mapping, supply, rule, first.value.next), copied)
  {
    hide RegenerateFields, RegenerateValue;
    FieldsConcat([e], rest, mapping, supply, rule, n);
    NestedField(e, mapping, supply, rule, n);
    var first := RegenerateValue(e.value, mapping, supply, HoldsArguments(e.key), n).value;
    var more := RegenerateFields(rest, mapping, supply, rule, first.next).value;
    assert ([Entry(e.key, first.value)] + more.value)[0].value == first.value;
    assert ([Entry(e.key, first.value)] + more.value)[1..] == more.value;
    assert ([Entry(e.key, v)] + copied)[0].value == v && ([Entry(e.key, v)] + copied)[1..] == copied;
  }

  lemma ListYields(items: seq<Value>, copied: seq<Value>, mapping: map<Id, Id>, supply: nat -> Id, isArguments: bool,
                   n: nat)
    requires Yields(RegenerateValue(List(items), mapping, supply, isArguments, n), List(copied))
    ensures Yields(RegenerateItems(items, mapping, supply, isArguments, n), copied)
    ensures RegenerateValue(List(items), mapping, supply, isArguments, n).value.next ==
            RegenerateItems(items, mapping, supply, isArguments, n).value.next
  {
  }

  /** A field that holds a list of arguments. */
  lemma ArgsFieldYields(args: seq<Argument>, rest: seq<Entry>, copied: seq<Entry>, mapping: map<Id, Id>,
                        supply: nat -> Id,
                        rule: IdRule, n: nat)
    requires Unstamped(ArgumentsOf(args), supply)
    requires Yields(RegenerateFields([Entry("arguments", List(ArgJsons(args)))] + rest, mapping, supply, rule, n),
                    [Entry("arguments", List(ArgJsons(CopyArgs(args, mapping))))] + copied)
    ensures PlainArgs(args) && Yields(RegenerateFields(rest, mapping, supply, rule, n + |args|), copied)
  {
    hide RegenerateFields, RegenerateValue, RegenerateItems, ArgJsons, PlainArgs, Unstamped;
    FieldYields(Entry("arguments", List(ArgJsons(args))), List(ArgJsons(CopyArgs(args, mapping))), rest, copied,
                mapping,
                supply, rule, n);
    ListYields(ArgJsons(args), ArgJsons(CopyArgs(args, mapping)), mapping, supply, true, n);
    ArgsYield(args, mapping, supply, n);
    ArgsCopied(args, mapping, supply, n);
  }

  lemma TransformYields(t: Transform, mapping: map<Id, Id>, supply: nat -> Id, n: nat)
    requires Unstamped(ArgumentsOf(t.arguments), supply)
    requires Yields(RegenerateObject(TransformJson(t), mapping, supply, true, false, n),
                    TransformJson(CopyTransform(t, mapping, supply, n)))
    ensures PlainArgs(t.arguments)
  {
    hide RegenerateObject, RegenerateFields, ArgJsons, PlainArgs, Unstamped, Fields;
    var nested, copied := Entry("arguments", List(ArgJsons(t.arguments))),
                          Entry("arguments", List(ArgJsons(CopyArgs(t.arguments, mapping))));
    ElementYields(t.id, supply(n), Names(t.app, t.name), [nested], [copied], mapping, supply, true, n);
    assert [nested] + [] == [nested] && [copied] + [] == [copied];
    ArgsFieldYields(t.arguments, [], [], mapping, supply, FreshId(supply(n)), n + 1);
  }

  lemma TransformsUnfold(ts: seq<Transform>, mapping: map<Id, Id>, supply: nat -> Id, n: nat)
    requires ts != []
    ensures var next := n + 1 + |ts[0].arguments|;
            && ts == [ts[0]] + ts[1..] && TransformJson(ts[0]).Dict?
            && TransformJsons(ts) == [TransformJson(ts[0])] + TransformJsons(ts[1..])
            && TransformJsons(CopyTransforms(ts, mapping, supply, n).value) ==
                 [TransformJson(CopyTransform(ts[0], mapping, supply, n))]
                 + TransformJsons(CopyTransforms(ts[1..], mapping, supply, next).value)
    ensures ArgumentsOf(ts[0].arguments) <= TransformArguments(ts)
    ensures TransformArguments(ts[1..]) <= TransformArguments(ts)
  {
    TransformIsObject(ts[0]);
    hide TransformJson, CopyTransform;
    assert ts == [ts[0]] + ts[1..];
    assert forall a :: a in ArgumentsOf(ts[0].arguments) ==> ts[0] in ts && a in ts[0].arguments;
  }

  lemma {:induction false} TransformsYield(ts: seq<Transform>, mapping: map<Id, Id>, supply: nat -> Id, n: nat)
    requires Unstamped(TransformArguments(ts), supply)
    requires Yields(RegenerateItems(TransformJsons(ts), mapping, supply, false, n),
                    TransformJsons(CopyTransforms(ts, mapping, supply, n).value))
    ensures forall t :: t in ts ==> PlainArgs(t.arguments)
    decreases |ts|
  {
    hide *;
    if ts != [] {
      var next := n + 1 + |ts[0].arguments|;
      TransformsUnfold(ts, mapping, supply, n);
      UnstampedParts(ArgumentsOf(ts[0].arguments), TransformArguments(ts), supply);
      UnstampedParts(TransformArguments(ts[1..]), TransformArguments(ts), supply);
      ConsYields(TransformJson(ts[0]), TransformJson(CopyTransform(ts[0], mapping, supply, n)), TransformJsons(ts[1..]),
                 TransformJsons(CopyTransforms(ts[1..], mapping, supply, next).value), mapping, supply, false, n);
      TransformYields(ts[0], mapping, supply, n);
      TransformDraws(ts[0], mapping, supply, n);
      TransformsYield(ts[1..], mapping, supply, next);
    }
  }

  lemma TransformDraws(t: Transform, mapping: map<Id, Id>, supply: nat -> Id, n: nat)
    requires PlainArgs(t.arguments)
    requires Yields(RegenerateObject(TransformJson(t), mapping, supply, true, false, n),
                    TransformJson(CopyTransform(t, mapping, supply, n)))
    ensures RegenerateObject(TransformJson(t), mapping, supply, true, false, n).value.next == n + 1 + |t.arguments|
  {
    hide RegenerateObject, TransformJson, CopyTransform, PlainArgs;
    TransformCopied(t, mapping, supply, n);
  }

  lemma TransformIsObject(t: Transform)
    ensures TransformJson(t).Dict?
  {
  }

  lemma UnstampedParts(args: set<Argument>, all: set<Argument>, supply: nat -> Id)
    requires Unstamped(all, supply) && args <= all
    ensures Unstamped(args, supply)
  {
    hide Stamped;
  }

  function ConditionScalars(c: Condition): seq<Entry>
  {
    Names(c.app, c.name) + [Entry("is_negated", Bool(c.negated))]
  }

  function ConditionNested(args: seq<Argument>, ts: seq<Transform>): seq<Entry>
  {
    [Entry("arguments", List(ArgJsons(args)))] + [Entry("transforms", List(TransformJsons(ts)))]
  }

  lemma ConditionShape(c: Condition)
    ensures ConditionJson(c) == Dict(Fields(c.id, ConditionScalars(c), ConditionNested(c.arguments, c.transforms)))
    ensures forall i | 0 <= i < |ConditionScalars(c)| :: Scalar(ConditionScalars(c)[i])
  {
    hide ArgJsons, TransformJsons;
  }

  lemma CopiedCondition(c: Condition, mapping: map<Id, Id>, supply: nat -> Id, n: nat)
    ensures var d := CopyCondition(c, mapping, supply, n).value;
            && d.id == supply(n) && ConditionScalars(d) == ConditionScalars(c)
                && d.arguments == CopyArgs(c.arguments, mapping)
            && d.transforms == CopyTransforms(c.transforms, mapping, supply, n + 1 + |c.arguments|).value
  {
    hide CopyArgs, CopyTransforms;
  }

  lemma ConditionFieldsYield(c: Condition, mapping: map<Id, Id>, supply: nat -> Id, rule: IdRule, n: nat)
    requires Unstamped(ArgumentsOf(c.arguments), supply) && Unstamped(TransformArguments(c.transforms), supply)
    requires var copied := CopyTransforms(c.transforms, mapping, supply, n + |c.arguments|).value;
             Yields(RegenerateFields(ConditionNested(c.arguments, c.transforms), mapping, supply, rule, n),
                    ConditionNested(CopyArgs(c.arguments, mapping), copied))
    ensures PlainCondition(c)
  {
    hide RegenerateFields, RegenerateValue, RegenerateItems, ArgJsons, TransformJsons, CopyTransforms, PlainArgs,
      Unstamped,
      TransformArguments, ArgumentsOf, CopyArgs;
    var mid := n + |c.arguments|;
    var copied := CopyTransforms(c.transforms, mapping, supply, mid).value;
    var ts, ts' := Entry("transforms", List(TransformJsons(c.transforms))),
        Entry("transforms", List(TransformJsons(copied)));
    ArgsFieldYields(c.arguments, [ts], [ts'], mapping, supply, rule, n);
    assert [ts] + [] == [ts] && [ts'] + [] == [ts'];
    FieldYields(ts, ts'.value, [], [], mapping, supply, rule, mid);
    ListYields(TransformJsons(c.transforms), TransformJsons(copied), mapping, supply, false, mid);
    TransformsYield(c.transforms, mapping, supply, mid);
  }

  lemma ConditionParts(c: Condition, supply: nat -> Id)
    requires Unstamped(ConditionArguments(c), supply)
    ensures Unstamped(ArgumentsOf(c.arguments), supply) && Unstamped(TransformArguments(c.transforms), supply)
  {
    hide Unstamped, ArgumentsOf, TransformArguments;
    UnstampedParts(ArgumentsOf(c.arguments), ConditionArguments(c), supply);
    UnstampedParts(TransformArguments(c.transforms), ConditionArguments(c), supply);
  }

  lemma ConditionYields(c: Condition, mapping: map<Id, Id>, supply: nat -> Id, n: nat)
    requires Unstamped(ConditionArguments(c), supply)
    requires Yields(RegenerateObject(ConditionJson(c), mapping, supply, true, false, n),
                    ConditionJson(CopyCondition(c, mapping, supply, n).value))
    ensures PlainCondition(c)
  {
    hide *;
    ConditionParts(c, supply);
    var d := CopyCondition(c, mapping, supply, n).value;
    ConditionShape(c);
    ConditionShape(d);
    CopiedCondition(c, mapping, supply, n);
    ElementYields(c.id, supply(n), ConditionScalars(c), ConditionNested(c.arguments, c.transforms),
                  ConditionNested(d.arguments, d.transforms), mapping, supply, true, n);
    ConditionFieldsYield(c, mapping, supply, FreshId(supply(n)), n + 1);
  }

  lemma {:induction false} ConditionsYield(cs: seq<Condition>, mapping: map<Id, Id>, supply: nat -> Id, n: nat)
    requires Unstamped(ConditionsArguments(cs), supply)
    requires Yields(RegenerateItems(ConditionJsons(cs), mapping, supply, false, n),
                    ConditionJsons(CopyConditions(cs, mapping, supply, n).value))
    ensures forall c :: c in cs ==> PlainCondition(c)
    decreases |cs|
  {
    if cs != [] {
      hide RegenerateObject, RegenerateItems, PlainCondition, Unstamped, ConditionJson, ConditionArguments,
        CopyCondition;
      assert cs == [cs[0]] + cs[1..];
      UnstampedParts(ConditionArguments(cs[0]), ConditionsArguments(cs), supply);
      UnstampedParts(ConditionsArguments(cs[1..]), ConditionsArguments(cs), supply);
      hide ConditionsArguments;
      var first := CopyCondition(cs[0], mapping, supply, n);
      ConditionIsObject(cs[0]);
      ConsYields(ConditionJson(cs[0]), ConditionJson(first.value), ConditionJsons(cs[1..]),
                 ConditionJsons(CopyConditions(cs[1..], mapping, supply, first.next).value), mapping, supply, false, n);
      ConditionYields(cs[0], mapping, supply, n);
      ConditionCopied(cs[0], mapping, supply, n);
      ConditionsYield(cs[1..], mapping, supply, first.next);
    }
  }

  lemma ConditionIsObject(c: Condition)
    ensures ConditionJson(c).Dict?
  {
  }

  lemma {:induction false} ExpressionYields(e: Expression, mapping: map<Id, Id>, supply: nat -> Id, n: nat)
    requires Unstamped(ExpressionArguments(e), supply)
    requires Yields(RegenerateObject(ExpressionJson(e), mapping, supply, true, false, n),
                    ExpressionJson(CopyExpression(e, mapping, supply, n).value))
    ensures PlainExpression(e)
    decreases e, 1
  {
    UnstampedParts(ConditionsArguments(e.conditions), ExpressionArguments(e), supply);
    UnstampedParts(ExpressionsArguments(e.children), ExpressionArguments(e), supply);
    hide RegenerateObject, RegenerateFields, RegenerateValue, RegenerateItems, ConditionJsons, ExpressionJsons,
      CopyConditions,
      CopyExpressions, PlainCondition, OperatorName, ConditionsArguments, ExpressionArguments, ExpressionsArguments,
          Unstamped, Fields;
    var scalars := [Entry("operator", Str(OperatorName(e.operator))), Entry("is_negated", Bool(e.negated))];
    var rule := FreshId(supply(n));
    var mid := CopyConditions(e.conditions, mapping, supply, n + 1);
    var end := CopyExpressions(e.children, mapping, supply, mid.next);
    var cs, cs' := Entry("conditions", List(ConditionJsons(e.conditions))),
        Entry("conditions", List(ConditionJsons(mid.value)));
    var es, es' := Entry("child_expressions", List(ExpressionJsons(e.children))),
                   Entry("child_expressions", List(ExpressionJsons(end.value)));
    ElementYields(e.id, supply(n), scalars, [cs] + [es], [cs'] + [es'], mapping, supply, true, n);
    FieldYields(cs, cs'.value, [es], [es'], mapping, supply, rule, n + 1);
    ListYields(ConditionJsons(e.conditions), ConditionJsons(mid.value), mapping, supply, false, n + 1);
    ConditionsYield(e.conditions, mapping, supply, n + 1);
    ConditionsCopied(e.conditions, mapping, supply, n + 1);
    assert [es] + [] == [es] && [es'] + [] == [es'];
    FieldYields(es, es'.value, [], [], mapping, supply, rule, mid.next);
    ListYields(ExpressionJsons(e.children), ExpressionJsons(end.value), mapping, supply, false, mid.next);
    ExpressionsYield(e.children, mapping, supply, mid.next);
  }

  lemma {:induction false} ExpressionsYield(es: seq<Expression>, mapping: map<Id, Id>, supply: nat -> Id, n: nat)
    requires Unstamped(ExpressionsArguments(es), supply)
    requires Yields(RegenerateItems(ExpressionJsons(es), mapping, supply, false, n),
                    ExpressionJsons(CopyExpressions(es, mapping, supply, n).value))
    ensures forall e :: e in es ==> PlainExpression(e)
    decreases es, 0
  {
    if es != [] {
      hide RegenerateObject, RegenerateItems, PlainExpression, Unstamped, ExpressionJson, ExpressionArguments,
        CopyExpression;
      assert es == [es[0]] + es[1..];
      UnstampedParts(ExpressionArguments(es[0]), ExpressionsArguments(es), supply);
      UnstampedParts(ExpressionsArguments(es[1..]), ExpressionsArguments(es), supply);
      hide ExpressionsArguments;
      var first := CopyExpression(es[0], mapping, supply, n);
      ExpressionIsObject(es[0]);
      ConsYields(ExpressionJson(es[0]), ExpressionJson(first.value), ExpressionJsons(es[1..]),
                 ExpressionJsons(CopyExpressions(es[1..], mapping, supply, first.next).value), mapping, supply, false,
                     n);
      ExpressionYields(es[0], mapping, supply, n);
      ExpressionCopied(es[0], mapping, supply, n);
      ExpressionsYield(es[1..], mapping, supply, first.next);
    }
  }

  lemma ExpressionIsObject(e: Expression)
    ensures ExpressionJson(e).Dict?
  {
  }

  lemma OptionYields(e: Option<Expression>, mapping: map<Id, Id>, supply: nat -> Id, n: nat)
    requires Unstamped(OptionArguments(e), supply)
    requires Yields(RegenerateValue(OptionJson(e), mapping, supply, false, n),
                    OptionJson(CopyOption(e, mapping, supply, n).value))
    ensures PlainOption(e)
  {
    hide RegenerateObject, PlainExpression, ExpressionArguments, CopyExpression, Unstamped;
    if e.Some? {
      ExpressionIsObject(e.value);
      ExpressionYields(e.value, mapping, supply, n);
    }
  }

  lemma DeviceYields(d: Option<Argument>, mapping: map<Id, Id>, supply: nat -> Id, n: nat)
    requires d.Some? ==> Unstamped({d.value}, supply)
    requires Yields(RegenerateValue(match d case None => Null case Some(a) => ArgJson(a), mapping, supply, true, n),
                    match d case None => Null case Some(a) => ArgJson(CopyArg(a, mapping)))
    ensures d.Some? ==> PlainArgs([d.value])
  {
    hide RegenerateObject, Stamped, Plain;
    if d.Some? {
      ArgIsObject(d.value);
      ArgYields(d.value, mapping, supply, n);
    }
  }

  function DeviceJson(d: Option<Argument>): Value
  {
    match d case None => Null case Some(a) => ArgJson(a)
  }

  function ActionNested(device: Option<Argument>, args: seq<Argument>, trigger: Option<Expression>): seq<Entry>
  {
    [Entry("device_id", DeviceJson(device))]
        + ([Entry("arguments", List(ArgJsons(args)))] + [Entry("trigger", OptionJson(trigger))])
  }

  lemma ActionShape(a: Action)
    ensures ActionJson(a) == Dict(Fields(a.id, Dumps.Names(a.app, a.name),
                                         ActionNested(a.device, a.arguments, a.trigger)))
    ensures forall i | 0 <= i < |Dumps.Names(a.app, a.name)| :: Scalar(Dumps.Names(a.app, a.name)[i])
  {
    hide ArgJsons, OptionJson, ArgJson;
  }

  function CopyDevice(d: Option<Argument>, mapping: map<Id, Id>): Option<Argument>
  {
    match d case None => None case Some(a) => Some(CopyArg(a, mapping))
  }

  lemma CopiedAction(a: Action, mapping: map<Id, Id>, supply: nat -> Id, n: nat)
    ensures var d := CopyAction(a, mapping, supply, n).value;
            var mid := if a.device.Some? then n + 1 else n;
            && d.id == a.id && d.app == a.app && d.name == a.name && d.device == CopyDevice(a.device, mapping)
            && d.arguments == CopyArgs(a.arguments, mapping)
            && d.trigger == CopyOption(a.trigger, mapping, supply, mid + |a.arguments|).value
  {
    hide CopyArgs, CopyOption, CopyArg;
  }

  lemma ActionFieldsYield(a: Action, mapping: map<Id, Id>, supply: nat -> Id, n: nat, mid: nat)
    requires mid == if a.device.Some? then n + 1 else n
    requires Unstamped(ArgumentsOf(a.arguments), supply) && Unstamped(OptionArguments(a.trigger), supply)
    requires a.device.Some? ==> Unstamped({a.device.value}, supply)
    requires Yields(RegenerateFields(ActionNested(a.device, a.arguments, a.trigger), mapping, supply, KeepId, n),
                    ActionNested(CopyDevice(a.device, mapping), CopyArgs(a.arguments, mapping),
                                 CopyOption(a.trigger, mapping, supply, mid + |a.arguments|).value))
    ensures PlainAction(a)
  {
    hide RegenerateFields, RegenerateValue, ArgJsons, OptionJson, ArgJson, CopyOption, PlainArgs, PlainOption,
      Unstamped,
      OptionArguments, ArgumentsOf, CopyArgs, CopyArg;
    var copied := CopyOption(a.trigger, mapping, supply, mid + |a.arguments|).value;
    var args, args' := Entry("arguments", List(ArgJsons(a.arguments))),
        Entry("arguments", List(ArgJsons(CopyArgs(a.arguments, mapping))));
    var trigger, trigger' := Entry("trigger", OptionJson(a.trigger)), Entry("trigger", OptionJson(copied));
    var device := Entry("device_id", DeviceJson(a.device));
    FieldYields(device, DeviceJson(CopyDevice(a.device, mapping)), [args] + [trigger], [args'] + [trigger'], mapping,
                supply, KeepId, n);
    DeviceYields(a.device, mapping, supply, n);
    DeviceCopied(a.device, mapping, supply, n);
    ArgsFieldYields(a.arguments, [trigger], [trigger'], mapping, supply, KeepId, mid);
    assert [trigger] + [] == [trigger] && [trigger'] + [] == [trigger'];
    FieldYields(trigger, trigger'.value, [], [], mapping, supply, KeepId, mid + |a.arguments|);
    OptionYields(a.trigger, mapping, supply, mid + |a.arguments|);
  }

  lemma ActionParts(a: Action, supply: nat -> Id)
    requires Unstamped(ActionArguments(a), supply)
    ensures Unstamped(ArgumentsOf(a.arguments), supply) && Unstamped(OptionArguments(a.trigger), supply)
    ensures a.device.Some? ==> Unstamped({a.device.value}, supply)
  {
    hide Unstamped, ArgumentsOf, OptionArguments;
    UnstampedParts(ArgumentsOf(a.arguments), ActionArguments(a), supply);
    UnstampedParts(OptionArguments(a.trigger), ActionArguments(a), supply);
    if a.device.Some? {
      UnstampedParts({a.device.value}, ActionArguments(a), supply);
    }
  }

  lemma ActionYields(a: Action, mapping: map<Id, Id>, supply: nat -> Id, n: nat)
    requires Unstamped(ActionArguments(a), supply)
    requires Yields(RegenerateObject(ActionJson(a), mapping, supply, false, false, n),
                    ActionJson(CopyAction(a, mapping, supply, n).value))
    ensures PlainAction(a)
  {
    hide *;
    ActionParts(a, supply);
    var d := CopyAction(a, mapping, supply, n).value;
    ActionShape(a);
    ActionShape(d);
    CopiedAction(a, mapping, supply, n);
    ElementYields(a.id, a.id, Dumps.Names(a.app, a.name), ActionNested(a.device, a.arguments, a.trigger),
                  ActionNested(d.device, d.arguments, d.trigger), mapping, supply, false, n);
    ActionFieldsYield(a, mapping, supply, n, if a.device.Some? then n + 1 else n);
  }

  function EdgeScalars(b: Edge): seq<Entry>
  {
    [Entry("source_id", Str(b.source)), Entry("destination_id", Str(b.destination)), Entry("status", Str(b.status)),
     Entry("priority", Num(b.priority as real))]
  }

  lemma EdgeShape(b: Edge)
    ensures EdgeJson(b) == Dict(Fields(b.id, EdgeScalars(b), [Entry("condition", OptionJson(b.condition))]))
    ensures forall i | 0 <= i < |EdgeScalars(b)| :: Scalar(EdgeScalars(b)[i])
  {
    hide OptionJson;
  }

  lemma CopiedEdge(b: Edge, mapping: map<Id, Id>, supply: nat -> Id, n: nat)
    ensures var d := CopyEdge(b, mapping, supply, n).value;
            && d.id == supply(n) && EdgeScalars(d) == EdgeScalars(b)
            && d.condition == CopyOption(b.condition, mapping, supply, n + 1).value
  {
    hide CopyOption;
  }

  lemma EdgeYields(b: Edge, mapping: map<Id, Id>, supply: nat -> Id, n: nat)
    requires Unstamped(OptionArguments(b.condition), supply)
    requires Yields(RegenerateObject(EdgeJson(b), mapping, supply, true, false, n),
                    EdgeJson(CopyEdge(b, mapping, supply, n).value))
    ensures PlainOption(b.condition)
  {
    hide *;
    var d := CopyEdge(b, mapping, supply, n).value;
    EdgeShape(b);
    EdgeShape(d);
    CopiedEdge(b, mapping, supply, n);
    var condition, condition' := Entry("condition", OptionJson(b.condition)),
        Entry("condition", OptionJson(d.condition));
    ElementYields(b.id, supply(n), EdgeScalars(b), [condition], [condition'], mapping, supply, true, n);
    assert [condition] + [] == [condition] && [condition'] + [] == [condition'];
    ConditionFieldYields(condition, condition', mapping, supply, n + 1, FreshId(supply(n)));
    OptionYields(b.condition, mapping, supply, n + 1);
  }

  lemma ConditionFieldYields(x: Entry, y: Entry, mapping: map<Id, Id>, supply: nat -> Id, n: nat, rule: IdRule)
    requires x.key == y.key == "condition" && Yields(RegenerateFields([x], mapping, supply, rule, n), [y])
    ensures Yields(RegenerateValue(x.value, mapping, supply, false, n), y.value)
  {
    hide RegenerateFields, RegenerateValue;
    assert [x] + [] == [x] && [y] + [] == [y];
    FieldYields(x, y.value, [], [], mapping, supply, rule, n);
  }

  // ---------------------------------------------------------------- whole workflows

  function ActionsArguments(actions: seq<Action>): set<Argument>
  {
    set a, x | a in actions && x in ActionArguments(a) :: x
  }

  function GuardArguments(edges: seq<Edge>): set<Argument>
  {
    set b, x | b in edges && x in OptionArguments(b.condition) :: x
  }

  function WorkflowArguments(f: Workflow): set<Argument>
  {
    ActionsArguments(f.actions) + GuardArguments(f.branches)
  }

  lemma SnocYields(xs: seq<Value>, x: Value, ys: seq<Value>, y: Value)
    requires xs + [x] == ys + [y]
    ensures xs == ys && x == y
  {
    assert (xs + [x])[..|xs|] == xs && (ys + [y])[..|ys|] == ys && (xs + [x])[|xs|] == x && (ys + [y])[|ys|] == y;
  }

  lemma LastActionYields(front: seq<Action>, last: Action, copies: seq<Action>, copy: Action, mapping: map<Id, Id>,
                         supply: nat -> Id, n: nat)
    requires Yields(RegenerateActions(ActionJsons(front + [last]), mapping, supply, n), ActionJsons(copies + [copy]))
    ensures var r := RegenerateActions(ActionJsons(front), mapping, supply, n);
            && Yields(r, ActionJsons(copies))
            && Yields(RegenerateObject(ActionJson(last), mapping, supply, false, false, r.value.next), ActionJson(copy))
  {
    hide RegenerateObject, ActionJson;
    ActionJsonsSnoc(front, last);
    ActionJsonsSnoc(copies, copy);
    assert (ActionJsons(front) + [ActionJson(last)])[..|front|] == ActionJsons(front);
    var r := RegenerateActions(ActionJsons(front), mapping, supply, n).value;
    IsObject(last);
    var d := RegenerateObject(ActionJson(last), mapping, supply, false, false, r.next).value;
    SnocYields(r.value, d.value, ActionJsons(copies), ActionJson(copy));
  }

  lemma ActionsParts(front: seq<Action>, last: Action, supply: nat -> Id)
    requires Unstamped(ActionsArguments(front + [last]), supply)
    ensures Unstamped(ActionsArguments(front), supply) && Unstamped(ActionArguments(last), supply)
  {
    hide Unstamped, ActionArguments;
    assert forall x :: x in ActionArguments(last) ==> last in front + [last] && x in ActionArguments(last);
    UnstampedParts(ActionsArguments(front), ActionsArguments(front + [last]), supply);
    UnstampedParts(ActionArguments(last), ActionsArguments(front + [last]), supply);
  }

  lemma CopyActionsSnoc(front: seq<Action>, last: Action, mapping: map<Id, Id>, supply: nat -> Id, n: nat)
    ensures var before := CopyActions(front, mapping, supply, n);
            CopyActions(front + [last], mapping, supply, n).value ==
            before.value + [CopyAction(last, mapping, supply, before.next).value]
  {
    hide CopyAction;
    assert (front + [last])[..|front|] == front;
  }

  lemma {:induction false} ActionsYield(actions: seq<Action>, mapping: map<Id, Id>, supply: nat -> Id, n: nat)
    requires Unstamped(ActionsArguments(actions), supply)
    requires Yields(RegenerateActions(ActionJsons(actions), mapping, supply, n),
                    ActionJsons(CopyActions(actions, mapping, supply, n).value))
    ensures forall a :: a in actions ==> PlainAction(a)
    decreases |actions|, 1
  {
    hide *;
    if actions != [] {
      var front, last := actions[..|actions|-1], actions[|actions|-1];
      assert front + [last] == actions;
      LastIsPlain(front, last, mapping, supply, n);
    }
  }

  lemma {:induction false} LastIsPlain(front: seq<Action>, last: Action, mapping: map<Id, Id>, supply: nat -> Id,
                                       n: nat)
    requires Unstamped(ActionsArguments(front + [last]), supply)
    requires Yields(RegenerateActions(ActionJsons(front + [last]), mapping, supply, n),
                    ActionJsons(CopyActions(front + [last], mapping, supply, n).value))
    ensures (forall a :: a in front ==> PlainAction(a)) && PlainAction(last)
    decreases |front|, 2
  {
    hide *;
    var before := CopyActions(front, mapping, supply, n);
    ActionsParts(front, last, supply);
    CopyActionsSnoc(front, last, mapping, supply, n);
    LastActionYields(front, last, before.value, CopyAction(last, mapping, supply, before.next).value, mapping, supply,
                     n);
    ActionsYield(front, mapping, supply, n);
    ActionsDraw(front, mapping, supply, n);
    ActionYields(last, mapping, supply, before.next);
  }

  lemma ActionsDraw(actions: seq<Action>, mapping: map<Id, Id>, supply: nat -> Id, n: nat)
    requires forall a :: a in actions ==> PlainAction(a)
    requires Yields(RegenerateActions(ActionJsons(actions), mapping, supply, n),
                    ActionJsons(CopyActions(actions, mapping, supply, n).value))
    ensures RegenerateActions(ActionJsons(actions), mapping, supply, n).value.next ==
            CopyActions(actions, mapping, supply, n).next
  {
    hide RegenerateActions, ActionJsons, CopyActions, ActionsReferences, PlainAction;
    ActionsCopied(actions, mapping, supply, n);
  }

  lemma ActionJsonsSnoc(actions: seq<Action>, a: Action)
    ensures ActionJsons(actions + [a]) == ActionJsons(actions) + [ActionJson(a)]
  {
    hide ActionJson;
    assert (actions + [a])[..|actions|] == actions;
  }

  lemma BranchYields(b: Edge, mapping: map<Id, Id>, supply: nat -> Id, n: nat)
    requires Unstamped(OptionArguments(b.condition), supply)
    requires Yields(RegenerateBranch(EdgeJson(b), mapping, supply, n),
                    EdgeJson(CopyEdge(MapEnds(b, mapping), mapping, supply, n).value))
    ensures PlainOption(b.condition)
  {
    hide RegenerateObject, EdgeJson, SetField, IdField, PlainOption, OptionArguments, CopyEdge, Unstamped;
    var e := MapEnds(b, mapping);
    BranchEndsSet(b, e.source, e.destination);
    EdgeIsObject(e);
    EdgeYields(e, mapping, supply, n);
  }

  lemma LastBranchYields(front: seq<Edge>, last: Edge, copies: seq<Edge>, copy: Edge, mapping: map<Id, Id>,
                         supply: nat -> Id, n: nat)
    requires Yields(RegenerateBranches(EdgeJsons(front + [last]), mapping, supply, n), EdgeJsons(copies + [copy]))
    ensures var r := RegenerateBranches(EdgeJsons(front), mapping, supply, n);
            && Yields(r, EdgeJsons(copies))
            && Yields(RegenerateBranch(EdgeJson(last), mapping, supply, r.value.next), EdgeJson(copy))
  {
    hide RegenerateBranch, EdgeJson;
    EdgeJsonsSnoc(front, last);
    EdgeJsonsSnoc(copies, copy);
    assert (EdgeJsons(front) + [EdgeJson(last)])[..|front|] == EdgeJsons(front);
    var r := RegenerateBranches(EdgeJsons(front), mapping, supply, n).value;
    var d := RegenerateBranch(EdgeJson(last), mapping, supply, r.next).value;
    SnocYields(r.value, d.value, EdgeJsons(copies), EdgeJson(copy));
  }

  lemma GuardParts(front: seq<Edge>, last: Edge, supply: nat -> Id)
    requires Unstamped(GuardArguments(front + [last]), supply)
    ensures Unstamped(GuardArguments(front), supply) && Unstamped(OptionArguments(last.condition), supply)
  {
    hide Unstamped, OptionArguments;
    assert forall x :: x in OptionArguments(last.condition) ==> last in front + [last];
    UnstampedParts(GuardArguments(front), GuardArguments(front + [last]), supply);
    UnstampedParts(OptionArguments(last.condition), GuardArguments(front + [last]), supply);
  }

  lemma CopyEdgesSnoc(front: seq<Edge>, last: Edge, mapping: map<Id, Id>, supply: nat -> Id, n: nat)
    ensures var before := CopyEdges(front, mapping, supply, n);
            CopyEdges(front + [last], mapping, supply, n).value ==
            before.value + [CopyEdge(MapEnds(last, mapping), mapping, supply, before.next).value]
  {
    hide CopyEdge, MapEnds;
    assert (front + [last])[..|front|] == front;
  }

  lemma {:induction false} BranchesYield(edges: seq<Edge>, mapping: map<Id, Id>, supply: nat -> Id, n: nat)
    requires Unstamped(GuardArguments(edges), supply)
    requires Yields(RegenerateBranches(EdgeJsons(edges), mapping, supply, n),
                    EdgeJsons(CopyEdges(edges, mapping, supply, n).value))
    ensures forall b :: b in edges ==> PlainOption(b.condition)
    decreases |edges|, 1
  {
    hide *;
    if edges != [] {
      var front, last := edges[..|edges|-1], edges[|edges|-1];
      assert front + [last] == edges;
      LastGuardIsPlain(front, last, mapping, supply, n);
    }
  }

  lemma {:induction false} LastGuardIsPlain(front: seq<Edge>, last: Edge, mapping: map<Id, Id>, supply: nat -> Id,
                                            n: nat)
    requires Unstamped(GuardArguments(front + [last]), supply)
    requires Yields(RegenerateBranches(EdgeJsons(front + [last]), mapping, supply, n),
                    EdgeJsons(CopyEdges(front + [last], mapping, supply, n).value))
    ensures (forall b :: b in front ==> PlainOption(b.condition)) && PlainOption(last.condition)
    decreases |front|, 2
  {
    hide *;
    var before := CopyEdges(front, mapping, supply, n);
    GuardParts(front, last, supply);
    CopyEdgesSnoc(front, last, mapping, supply, n);
    LastBranchYields(front, last, before.value, CopyEdge(MapEnds(last, mapping), mapping, supply, before.next).value,
                     mapping, supply, n);
    BranchesYield(front, mapping, supply, n);
    BranchesDraw(front, mapping, supply, n);
    BranchYields(last, mapping, supply, before.next);
  }

  lemma BranchesDraw(edges: seq<Edge>, mapping: map<Id, Id>, supply: nat -> Id, n: nat)
    requires forall b :: b in edges ==> PlainOption(b.condition)
    requires Yields(RegenerateBranches(EdgeJsons(edges), mapping, supply, n),
                    EdgeJsons(CopyEdges(edges, mapping, supply, n).value))
    ensures RegenerateBranches(EdgeJsons(edges), mapping, supply, n).value.next ==
            CopyEdges(edges, mapping, supply, n).next
  {
    hide RegenerateBranches, EdgeJsons, CopyEdges, EdgesNeeds, PlainOption;
    BranchesCopied(edges, mapping, supply, n);
  }

  lemma EdgeJsonsSnoc(edges: seq<Edge>, b: Edge)
    ensures EdgeJsons(edges + [b]) == EdgeJsons(edges) + [EdgeJson(b)]
  {
    hide EdgeJson;
    assert (edges + [b])[..|edges|] == edges;
  }

  lemma NewIdsKeepArguments(actions: seq<Action>, supply: nat -> Id, n: nat)
    ensures ActionsArguments(WithNewIds(actions, supply, n)) == ActionsArguments(actions)
    ensures (forall a :: a in WithNewIds(actions, supply, n) ==> PlainAction(a)) ==> forall a :: a in actions ==>
            PlainAction(a)
  {
    var renamed := WithNewIds(actions, supply, n);
    hide WithNewIds, ArgumentsOf, OptionArguments, PlainArgs, PlainOption;
    forall i | 0 <= i < |actions| ensures ActionArguments(renamed[i]) == ActionArguments(actions[i]) {
    }
    forall i | 0 <= i < |actions| ensures PlainAction(renamed[i]) ==> PlainAction(actions[i]) {
    }
    hide ActionArguments, PlainAction;
    forall x | x in ActionsArguments(renamed) ensures x in ActionsArguments(actions) {
      var i :| 0 <= i < |renamed| && x in ActionArguments(renamed[i]);
      assert actions[i] in actions;
    }
    forall x | x in ActionsArguments(actions) ensures x in ActionsArguments(renamed) {
      var i :| 0 <= i < |actions| && x in ActionArguments(actions[i]);
      assert renamed[i] in renamed;
    }
    if forall a :: a in renamed ==> PlainAction(a) {
      forall a | a in actions ensures PlainAction(a) {
        var i :| 0 <= i < |actions| && a == actions[i];
        assert renamed[i] in renamed;
      }
    }
  }

  /** The dump of the copy is what regenerating comes to, exactly for the closed workflows with plain argument values:
      an object value, or a list with an object in it, is changed or fails, and a reference to a branch counter or an
      environment variable fails. */
  lemma CopiesExactly(f: Workflow, supply: nat -> Id)
    requires Unstamped(WorkflowArguments(f), supply)
    ensures RegenerateWorkflow(Dump(f), supply) == Some(Dump(CopyWorkflow(f, supply))) <==>
            Closed(f) && PlainWorkflow(f)
  {
    if PlainWorkflow(f) {
      hide *;
      CopyIsExact(f, supply);
    } else if RegenerateWorkflow(Dump(f), supply) == Some(Dump(CopyWorkflow(f, supply))) {
      YieldsPlain(f, supply);
      assert false;
    }
  }

  lemma DictYields(d: WorkflowDict, supply: nat -> Id, renamed: Renamed, copy: WorkflowDict)
    requires RenameActions(d.actions, supply, 1) == Some(renamed) && RegenerateWorkflow(d, supply) == Some(copy)
    ensures var actions := RegenerateActions(renamed.actions, renamed.mapping, supply, 1 + |d.actions|);
            && Yields(actions, copy.actions)
            && Yields(RegenerateBranches(d.branches, renamed.mapping, supply, actions.value.next), copy.branches)
  {
    hide RenameActions, RegenerateActions, RegenerateBranches;
  }

  lemma RegenerationYields(f: Workflow, supply: nat -> Id)
    requires RegenerateWorkflow(Dump(f), supply) == Some(Dump(CopyWorkflow(f, supply)))
    ensures var mapping, renamed, n := NewIds(f.actions, supply, 1), WithNewIds(f.actions, supply, 1), 1 + |f.actions|;
            var actions := RegenerateActions(ActionJsons(renamed), mapping, supply, n);
            var copied := CopyActions(renamed, mapping, supply, n);
            && Yields(actions, ActionJsons(copied.value))
            && Yields(RegenerateBranches(EdgeJsons(f.branches), mapping, supply, actions.value.next),
                      EdgeJsons(CopyEdges(f.branches, mapping, supply, copied.next).value))
  {
    RenameDumps(f.actions, supply, 1);
    hide RegenerateWorkflow, RegenerateActions, RegenerateBranches, RenameActions, CopyActions, CopyEdges, EdgeJsons,
      WithNewIds, NewIds, ActionJson;
    DictYields(Dump(f), supply, Renamed(ActionJsons(WithNewIds(f.actions, supply, 1)), NewIds(f.actions, supply, 1)),
               Dump(CopyWorkflow(f, supply)));
  }

  lemma YieldsPlain(f: Workflow, supply: nat -> Id)
    requires Unstamped(WorkflowArguments(f), supply)
    requires RegenerateWorkflow(Dump(f), supply) == Some(Dump(CopyWorkflow(f, supply)))
    ensures PlainWorkflow(f)
  {
    UnstampedParts(ActionsArguments(f.actions), WorkflowArguments(f), supply);
    UnstampedParts(GuardArguments(f.branches), WorkflowArguments(f), supply);
    var mapping, renamed, n := NewIds(f.actions, supply, 1), WithNewIds(f.actions, supply, 1), 1 + |f.actions|;
    RegenerationYields(f, supply);
    NewIdsKeepArguments(f.actions, supply, 1);
    hide RegenerateWorkflow, RegenerateActions, RegenerateBranches, CopyActions, CopyEdges, ActionJsons, EdgeJsons,
      WithNewIds, NewIds,
      PlainAction, PlainOption, ActionsArguments, GuardArguments, WorkflowArguments, Unstamped, Dump, CopyWorkflow,
          ActionsReferences;
    ActionsYield(renamed, mapping, supply, n);
    ActionsCopied(renamed, mapping, supply, n);
    BranchesYield(f.branches, mapping, supply, CopyActions(renamed, mapping, supply, n).next);
  }
}
