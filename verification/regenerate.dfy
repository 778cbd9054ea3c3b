/** Regenerating ids in nested JSON, as done when a workflow is copied or a playbook imported. */
module Regenerate {
  import opened Json
  import opened Elements

  /** What happens to an object's own id: nothing, a fresh one, or removal (arguments have none). */
  datatype IdRule = KeepId | FreshId(id: Id) | DropId

  /** A regenerated part and the number of fresh ids drawn so far. */
  datatype Drawn<T> = Drawn(value: T, next: nat)

  /** Python truth of a JSON value. */
  predicate Truthy(v: Value)
  {
    match v
    case Null => false
    case Bool(b) => b
    case Num(n) => n != 0.0
    case Str(s) => s != ""
    case List(items) => items != []
    case Dict(entries) => entries != []
  }

  predicate HasKey(entries: seq<Entry>, key: string)
  {
    exists i :: 0 <= i < |entries| && entries[i].key == key
  }

  predicate HoldsArguments(key: string)
  {
    key == "arguments" || key == "device_id"
  }

  /** regenerate_ids on one object. None is the KeyError of a reference that names no action. */
  function RegenerateObject(j: Value, mapping: map<Id, Id>, supply: nat -> Id, regenerate: bool, isArguments: bool,
                            n: nat)
    : Option<Drawn<Value>>
    requires j.Dict?
    decreases j, 1
  {
    var rule := if isArguments then DropId else if regenerate then FreshId(supply(n)) else KeepId;
    var first := if regenerate then n + 1 else n;
    match RegenerateFields(j.entries, mapping, supply, rule, first)
    case None => None
    case Some(fields) =>
      var entries := if rule.FreshId? && !HasKey(j.entries, "id") then fields.value + [Entry("id", Str(rule.id))]
                     else fields.value;
      Some(Drawn(Dict(entries), fields.next))
  }

  function RegenerateFields(es: seq<Entry>, mapping: map<Id, Id>, supply: nat -> Id, rule: IdRule, n: nat)
    : Option<Drawn<seq<Entry>>>
    decreases es, 0
  {
    if es == [] then Some(Drawn([], n))
    else
      match RegenerateField(es[0], mapping, supply, rule, n)
      case None => None
      case Some(field) =>
        match RegenerateFields(es[1..], mapping, supply, rule, field.next)
        case None => None
        case Some(rest) => Some(Drawn(field.value + rest.value, rest.next))
  }

  function RegenerateField(e: Entry, mapping: map<Id, Id>, supply: nat -> Id, rule: IdRule, n: nat)
    : Option<Drawn<seq<Entry>>>
    decreases e, 0
  {
    if e.key == "id" && rule.FreshId? then Some(Drawn([Entry("id", Str(rule.id))], n))
    else if e.key == "id" && rule.DropId? then Some(Drawn([], n))
    else if e.key == "reference" && Truthy(e.value) then
      if e.value.Str? && e.value.s in mapping then Some(Drawn([Entry(e.key, Str(mapping[e.value.s]))], n)) else None
    else
      match RegenerateValue(e.value, mapping, supply, HoldsArguments(e.key), n)
      case None => None
      case Some(v) => Some(Drawn([Entry(e.key, v.value)], v.next))
  }

  /** The value of a field: an object is regenerated, so are the objects in a list, all else stays. */
  function RegenerateValue(v: Value, mapping: map<Id, Id>, supply: nat -> Id, isArguments: bool, n: nat)
    : Option<Drawn<Value>>
    decreases v, 2
  {
    match v
    case Dict(_) => RegenerateObject(v, mapping, supply, true, isArguments, n)
    case List(items) =>
      (match RegenerateItems(items, mapping, supply, isArguments, n)
       case None => None
       case Some(d) => Some(Drawn(List(d.value), d.next)))
    case _ => Some(Drawn(v, n))
  }

  function RegenerateItems(items: seq<Value>, mapping: map<Id, Id>, supply: nat -> Id, isArguments: bool, n: nat)
    : Option<Drawn<seq<Value>>>
    decreases items, 0
  {
    if items == [] then Some(Drawn([], n))
    else
      match (if items[0].Dict? then RegenerateObject(items[0], mapping, supply, true, isArguments, n)
             else Some(Drawn(items[0], n)))
      case None => None
      case Some(first) =>
        match RegenerateItems(items[1..], mapping, supply, isArguments, first.next)
        case None => None
        case Some(rest) => Some(Drawn([first.value] + rest.value, rest.next))
  }

  // ---------------------------------------------------------------- fields in sequence

  lemma {:induction false} FieldsConcat(a: seq<Entry>, b: seq<Entry>, mapping: map<Id, Id>, supply: nat -> Id,
                                        rule: IdRule, n: nat)
    ensures RegenerateFields(a + b, mapping, supply, rule, n) ==
            match RegenerateFields(a, mapping, supply, rule, n)
            case None => None
            case Some(x) =>
              match RegenerateFields(b, mapping, supply, rule, x.next)
              case None => None
              case Some(y) => Some(Drawn(x.value + y.value, y.next))
    decreases |a|
  {
    if a == [] {
      assert a + b == b;
      var y := RegenerateFields(b, mapping, supply, rule, n);
      if y.Some? {
        assert [] + y.value.value == y.value.value;
      }
    } else {
      assert (a + b)[0] == a[0] && (a + b)[1..] == a[1..] + b;
      var field := RegenerateField(a[0], mapping, supply, rule, n);
      if field.Some? {
        FieldsConcat(a[1..], b, mapping, supply, rule, field.value.next);
        var x := RegenerateFields(a[1..], mapping, supply, rule, field.value.next);
        if x.Some? {
          var y := RegenerateFields(b, mapping, supply, rule, x.value.next);
          if y.Some? {
            assert field.value.value + (x.value.value + y.value.value) ==
                   (field.value.value + x.value.value) + y.value.value;
          }
        }
      }
    }
  }

  lemma OneField(e: Entry, mapping: map<Id, Id>, supply: nat -> Id, rule: IdRule, n: nat)
    ensures RegenerateFields([e], mapping, supply, rule, n) == RegenerateField(e, mapping, supply, rule, n)
  {
    assert [e][1..] == [];
    var field := RegenerateField(e, mapping, supply, rule, n);
    if field.Some? {
      assert field.value.value + [] == field.value.value;
    }
  }

  predicate Scalar(e: Entry)
  {
    e.key != "id" && e.key != "reference" && !e.value.List? && !e.value.Dict?
  }

  lemma {:induction false} ScalarsStay(es: seq<Entry>, mapping: map<Id, Id>, supply: nat -> Id, rule: IdRule, n: nat)
    requires forall i | 0 <= i < |es| :: Scalar(es[i])
    ensures RegenerateFields(es, mapping, supply, rule, n) == Some(Drawn(es, n))
    decreases |es|
  {
    if es != [] {
      assert Scalar(es[0]);
      assert Entry(es[0].key, es[0].value) == es[0];
      assert RegenerateField(es[0], mapping, supply, rule, n) == Some(Drawn([es[0]], n));
      ScalarsStay(es[1..], mapping, supply, rule, n);
      assert [es[0]] + es[1..] == es;
    }
  }

  // ---------------------------------------------------------------- which values come through unchanged

  /** Neither an object nor a list with an object directly in it. */
  predicate Plain(v: Value)
  {
    !v.Dict? && (v.List? ==> forall i | 0 <= i < |v.items| :: !v.items[i].Dict?)
  }

  lemma {:induction false} ItemsStay(items: seq<Value>, mapping: map<Id, Id>, supply: nat -> Id, isArguments: bool,
                                     n: nat)
    requires forall i | 0 <= i < |items| :: !items[i].Dict?
    ensures RegenerateItems(items, mapping, supply, isArguments, n) == Some(Drawn(items, n))
    decreases |items|
  {
    if items != [] {
      ItemsStay(items[1..], mapping, supply, isArguments, n);
      assert [items[0]] + items[1..] == items;
    }
  }

  lemma {:induction false} DrawsOnlyForward(j: Value, mapping: map<Id, Id>, supply: nat -> Id, regenerate: bool,
                                            isArguments: bool, n: nat)
    requires j.Dict?
    ensures var r := RegenerateObject(j, mapping, supply, regenerate, isArguments, n);
            r.Some? ==> r.value.next >= if regenerate then n + 1 else n
    decreases j, 1
  {
    var rule := if isArguments then DropId else if regenerate then FreshId(supply(n)) else KeepId;
    FieldsDrawForward(j.entries, mapping, supply, rule, if regenerate then n + 1 else n);
  }

  lemma {:induction false} FieldsDrawForward(es: seq<Entry>, mapping: map<Id, Id>, supply: nat -> Id, rule: IdRule,
                                             n: nat)
    ensures var r := RegenerateFields(es, mapping, supply, rule, n); r.Some? ==> r.value.next >= n
    decreases es, 0
  {
    if es != [] {
      ValueDrawsForward(es[0].value, mapping, supply, HoldsArguments(es[0].key), n);
      var field := RegenerateField(es[0], mapping, supply, rule, n);
      if field.Some? {
        FieldsDrawForward(es[1..], mapping, supply, rule, field.value.next);
      }
    }
  }

  lemma {:induction false} ValueDrawsForward(v: Value, mapping: map<Id, Id>, supply: nat -> Id, isArguments: bool,
                                             n: nat)
    ensures var r := RegenerateValue(v, mapping, supply, isArguments, n); r.Some? ==> r.value.next >= n
    decreases v, 2
  {
    match v {
      case Dict(_) => DrawsOnlyForward(v, mapping, supply, true, isArguments, n);
      case List(items) => ItemsDrawForward(items, mapping, supply, isArguments, n);
      case _ =>
    }
  }

  lemma {:induction false} ItemsDrawForward(items: seq<Value>, mapping: map<Id, Id>, supply: nat -> Id,
                                            isArguments: bool, n: nat)
    ensures var r := RegenerateItems(items, mapping, supply, isArguments, n);
            r.Some? ==> r.value.next >= n && (r.value.next == n ==> forall i | 0 <= i < |items| :: !items[i].Dict?)
    decreases items, 0
  {
    if items != [] {
      if items[0].Dict? {
        DrawsOnlyForward(items[0], mapping, supply, true, isArguments, n);
        var first := RegenerateObject(items[0], mapping, supply, true, isArguments, n);
        if first.Some? {
          ItemsDrawForward(items[1..], mapping, supply, isArguments, first.value.next);
        }
      } else {
        ItemsDrawForward(items[1..], mapping, supply, isArguments, n);
      }
    }
  }

  /** An argument's value is treated like any nested element: it comes through unchanged, with no id drawn for
      it, exactly when it is plain. An object gets an id of its own, and its `reference` is rewritten. */
  lemma PlainValuesSurvive(v: Value, mapping: map<Id, Id>, supply: nat -> Id, n: nat)
    ensures RegenerateValue(v, mapping, supply, false, n) == Some(Drawn(v, n)) <==> Plain(v)
  {
    match v {
      case Dict(_) => DrawsOnlyForward(v, mapping, supply, true, false, n);
      case List(items) =>
        if Plain(v) {
          ItemsStay(items, mapping, supply, false, n);
        } else {
          ItemsDrawForward(items, mapping, supply, false, n);
        }
      case _ =>
    }
  }

  /** A concrete loss: copying turns the empty object value into one that holds an id. */
  lemma ObjectValueIsChanged(supply: nat -> Id)
    ensures RegenerateValue(Dict([]), map[], supply, false, 0) == Some(Drawn(Dict([Entry("id", Str(supply(0)))]), 1))
  {
    assert [] + [Entry("id", Str(supply(0)))] == [Entry("id", Str(supply(0)))];
  }
}
