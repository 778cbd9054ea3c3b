/** Converting arguments to the types their schemas ask for. */
module Schemas {
  import opened Json

  /** A schema, by the keys the conversion looks at. */
  datatype Schema =
    | Primitive(kind: string)                          // a type of the type map
    | AnyArray
    | ArrayOf(items: Schema)
    | AnyObject
    | ObjectOf(properties: seq<Property>)
    | UnknownType                                      // a type that is none of these
    | Nested(schema: Schema)                           // no type, but a nested schema
    | Untyped                                          // neither

  datatype Property = Property(name: string, schema: Schema)

  /** Why a conversion fails. Uncaught is a TypeError or a KeyError, which the callers do not catch. */
  datatype Failure = InvalidArgument | InvalidApi | Uncaught

  datatype Conversion<T> = Converted(value: T) | Fails(why: Failure)

  /** The library functions used: conversion to a primitive type, and parsing JSON text. */
  datatype Library = Library(primitive: (string, Value) -> Conversion<Value>, parse: string -> Option<Value>)

  /** What is converted once stays as it is. */
  ghost predicate Idempotent(lib: Library)
  {
    forall kind, v, c :: lib.primitive(kind, v) == Converted(c) ==> lib.primitive(kind, c) == Converted(c)
  }

  function Characters(s: string): seq<Value>
  {
    if s == [] then [] else [Str([s[0]])] + Characters(s[1..])
  }

  function Keys(entries: seq<Entry>): seq<Value>
  {
    if entries == [] then [] else [Str(entries[0].key)] + Keys(entries[1..])
  }

  /** What iterating over a value yields: a string its characters, an object its keys. */
  function Iterate(v: Value): Option<seq<Value>>
  {
    match v
    case List(items) => Some(items)
    case Str(s) => Some(Characters(s))
    case Dict(entries) => Some(Keys(entries))
    case _ => None
  }

  /** Only the type of the items is looked up, so items with just a nested schema are a KeyError. */
  predicate HasType(s: Schema)
  {
    !s.Nested? && !s.Untyped?
  }

  function Find(ps: seq<Property>, name: string): (r: Option<Property>)
    ensures r.Some? ==> r.value in ps && r.value.name == name
    ensures r.None? ==> forall p :: p in ps ==> p.name != name
  {
    if ps == [] then None else if ps[0].name == name then Some(ps[0]) else Find(ps[1..], name)
  }

  function ConvertJson(lib: Library, s: Schema, v: Value): Conversion<Value>
    decreases s, 0, 0
  {
    match s
    case Primitive(kind) => lib.primitive(kind, v)
    case AnyArray => Converted(v)
    case ArrayOf(items) =>
      if !HasType(items) then Fails(Uncaught)
      else
        (match Iterate(v)
         case None => Fails(Uncaught)
         case Some(vs) =>
           match ConvertAll(lib, items, vs) case Converted(cs) => Converted(List(cs)) case Fails(why) => Fails(why))
    case AnyObject => (match AsObject(lib, v) case None => Fails(InvalidArgument) case Some(entries) =>
                       Converted(Dict(entries)))
    case ObjectOf(ps) =>
      (match AsObject(lib, v)
       case None => Fails(InvalidArgument)
       case Some(entries) =>
         match ConvertEntries(lib, ps, entries) case Converted(es) => Converted(Dict(es)) case Fails(why) => Fails(why))
    case Nested(inner) => ConvertJson(lib, inner, v)
    case UnknownType => Fails(InvalidApi)
    case Untyped => Fails(InvalidApi)
  }

  /** An object, or text that parses to one. */
  function AsObject(lib: Library, v: Value): Option<seq<Entry>>
  {
    match (if v.Str? then lib.parse(v.s) else Some(v))
    case Some(Dict(entries)) => Some(entries)
    case _ => None
  }

  function ConvertAll(lib: Library, s: Schema, vs: seq<Value>): Conversion<seq<Value>>
    decreases s, 1, |vs|
  {
    if vs == [] then Converted([])
    else match ConvertJson(lib, s, vs[0])
      case Fails(why) => Fails(why)
      case Converted(c) =>
        match ConvertAll(lib, s, vs[1..]) case Fails(why) => Fails(why) case Converted(cs) => Converted([c] + cs)
  }

  function ConvertEntries(lib: Library, ps: seq<Property>, entries: seq<Entry>): Conversion<seq<Entry>>
    decreases ps, 1, |entries|
  {
    if entries == [] then Converted([])
    else match Find(ps, entries[0].key)
      case None => Fails(InvalidArgument)
      case Some(p) =>
        match ConvertJson(lib, p.schema, entries[0].value)
        case Fails(why) => Fails(why)
        case Converted(c) =>
          match ConvertEntries(lib, ps, entries[1..])
          case Fails(why) => Fails(why)
          case Converted(es) => Converted([Entry(entries[0].key, c)] + es)
  }

  // ---------------------------------------------------------------- the shape a schema asks for

  ghost predicate Conforms(lib: Library, s: Schema, v: Value)
    decreases s
  {
    match s
    case Primitive(kind) => lib.primitive(kind, v) == Converted(v)
    case AnyArray => true
    case ArrayOf(items) => HasType(items) && v.List? && forall i | 0 <= i < |v.items| ::
        Conforms(lib, items, v.items[i])
    case AnyObject => v.Dict?
    case ObjectOf(ps) =>
      v.Dict? && forall i | 0 <= i < |v.entries| ::
        var p := Find(ps, v.entries[i].key); p.Some? && Conforms(lib, p.value.schema, v.entries[i].value)
    case Nested(inner) => Conforms(lib, inner, v)
    case UnknownType => false
    case Untyped => false
  }

  lemma {:induction false} AllConform(lib: Library, s: Schema, vs: seq<Value>)
    requires Idempotent(lib) && ConvertAll(lib, s, vs).Converted?
    ensures var cs := ConvertAll(lib, s, vs).value; forall i | 0 <= i < |cs| :: Conforms(lib, s, cs[i])
    decreases s, 1, |vs|
  {
    if vs != [] {
      OutputConforms(lib, s, vs[0]);
      AllConform(lib, s, vs[1..]);
    }
  }

  lemma {:induction false} EntriesConform(lib: Library, ps: seq<Property>, entries: seq<Entry>)
    requires Idempotent(lib) && ConvertEntries(lib, ps, entries).Converted?
    ensures var es := ConvertEntries(lib, ps, entries).value;
            |es| == |entries| && forall i | 0 <= i < |es| ::
              var p := Find(ps, es[i].key); p.Some? && Conforms(lib, p.value.schema, es[i].value)
    decreases ps, 1, |entries|
  {
    if entries != [] {
      OutputConforms(lib, Find(ps, entries[0].key).value.schema, entries[0].value);
      EntriesConform(lib, ps, entries[1..]);
    }
  }

  /** Whatever a conversion returns has the shape the schema asks for. */
  lemma {:induction false} OutputConforms(lib: Library, s: Schema, v: Value)
    requires Idempotent(lib) && ConvertJson(lib, s, v).Converted?
    ensures Conforms(lib, s, ConvertJson(lib, s, v).value)
    decreases s, 0, 0
  {
    match s {
      case ArrayOf(items) => AllConform(lib, items, Iterate(v).value);
      case ObjectOf(ps) => EntriesConform(lib, ps, AsObject(lib, v).value);
      case Nested(inner) => OutputConforms(lib, inner, v);
      case _ =>
    }
  }

  lemma {:induction false} AllStay(lib: Library, s: Schema, vs: seq<Value>)
    requires forall i | 0 <= i < |vs| :: Conforms(lib, s, vs[i])
    ensures ConvertAll(lib, s, vs) == Converted(vs)
    decreases s, 1, |vs|
  {
    if vs != [] {
      ConformingStays(lib, s, vs[0]);
      AllStay(lib, s, vs[1..]);
      assert [vs[0]] + vs[1..] == vs;
    }
  }

  lemma {:induction false} EntriesStay(lib: Library, ps: seq<Property>, entries: seq<Entry>)
    requires forall i | 0 <= i < |entries| ::
               var p := Find(ps, entries[i].key); p.Some? && Conforms(lib, p.value.schema, entries[i].value)
    ensures ConvertEntries(lib, ps, entries) == Converted(entries)
    decreases ps, 1, |entries|
  {
    if entries != [] {
      ConformingStays(lib, Find(ps, entries[0].key).value.schema, entries[0].value);
      EntriesStay(lib, ps, entries[1..]);
      assert [Entry(entries[0].key, entries[0].value)] + entries[1..] == entries;
    }
  }

  /** A value of the right shape is converted to itself. */
  lemma {:induction false} ConformingStays(lib: Library, s: Schema, v: Value)
    requires Conforms(lib, s, v)
    ensures ConvertJson(lib, s, v) == Converted(v)
    decreases s, 0, 0
  {
    match s {
      case ArrayOf(items) => AllStay(lib, items, v.items);
      case ObjectOf(ps) => EntriesStay(lib, ps, v.entries);
      case Nested(inner) => ConformingStays(lib, inner, v);
      case _ =>
    }
  }

  /** Conversion is idempotent on every schema tree, and its fixed points are exactly the values of the shape the
      schema asks for. */
  lemma ConversionIsIdempotent(lib: Library, s: Schema, v: Value)
    requires Idempotent(lib)
    ensures var r := ConvertJson(lib, s, v); r.Converted? ==> ConvertJson(lib, s, r.value) == r
    ensures ConvertJson(lib, s, v) == Converted(v) <==> Conforms(lib, s, v)
  {
    var r := ConvertJson(lib, s, v);
    if r.Converted? {
      OutputConforms(lib, s, v);
      ConformingStays(lib, s, r.value);
    }
    if Conforms(lib, s, v) {
      ConformingStays(lib, s, v);
    }
  }

  // ---------------------------------------------------------------- when conversion succeeds, and with what

  /** Item k is the first that does not convert, for the given reason. */
  ghost predicate FirstFails(lib: Library, s: Schema, vs: seq<Value>, k: nat, why: Failure)
  {
    && k < |vs| && ConvertJson(lib, s, vs[k]) == Fails(why)
    && forall j | 0 <= j < k :: ConvertJson(lib, s, vs[j]).Converted?
  }

  /** Items convert exactly when each one does, one for one and in order. */
  lemma {:induction false} ItemsConvert(lib: Library, s: Schema, vs: seq<Value>, cs: seq<Value>)
    ensures ConvertAll(lib, s, vs) == Converted(cs) <==>
              |cs| == |vs| && forall k | 0 <= k < |vs| :: ConvertJson(lib, s, vs[k]) == Converted(cs[k])
    decreases |vs|
  {
    hide ConvertJson;
    if vs != [] && cs != [] {
      ItemsConvert(lib, s, vs[1..], cs[1..]);
      assert forall k | 0 < k < |vs| :: vs[k] == vs[1..][k-1];
      assert cs == [cs[0]] + cs[1..];
    }
  }

  /** Items that do not convert are refused for the reason of the first that does not. */
  lemma {:induction false} ItemsFail(lib: Library, s: Schema, vs: seq<Value>, why: Failure)
    ensures ConvertAll(lib, s, vs) == Fails(why) <==> exists k: nat :: FirstFails(lib, s, vs, k, why)
    decreases |vs|
  {
    hide ConvertJson;
    if vs != [] {
      var c := ConvertJson(lib, s, vs[0]);
      if c.Converted? {
        ItemsFail(lib, s, vs[1..], why);
        assert forall k: nat :: FirstFails(lib, s, vs[1..], k, why) ==> FirstFails(lib, s, vs, k + 1, why);
        assert forall k: nat :: FirstFails(lib, s, vs, k, why) ==> k > 0 && FirstFails(lib, s, vs[1..], k - 1, why);
      } else {
        assert FirstFails(lib, s, vs, 0, c.why);
      }
    }
  }

  /** What is iterated over: a list's items, a string's characters, an object's keys, in order. */
  lemma {:induction false} IteratesInOrder(s: string, entries: seq<Entry>)
    ensures |Characters(s)| == |s| && forall k | 0 <= k < |s| :: Characters(s)[k] == Str([s[k]])
    ensures |Keys(entries)| == |entries| && forall k | 0 <= k < |entries| :: Keys(entries)[k] == Str(entries[k].key)
    decreases |s| + |entries|
  {
    if s != [] {
      IteratesInOrder(s[1..], entries);
    } else if entries != [] {
      IteratesInOrder(s, entries[1..]);
    }
  }

  /** What a value is iterated as: a list as its items, text as its characters, an object as its keys, in order. */
  ghost predicate IteratedAs(v: Value, vs: seq<Value>)
  {
    match v
    case List(items) => vs == items
    case Str(s) => |vs| == |s| && forall k | 0 <= k < |s| :: vs[k] == Str([s[k]])
    case Dict(entries) => |vs| == |entries| && forall k | 0 <= k < |entries| :: vs[k] == Str(entries[k].key)
    case _ => false
  }

  lemma IterateMeans(v: Value, vs: seq<Value>)
    ensures Iterate(v) == Some(vs) <==> IteratedAs(v, vs)
  {
    IteratesInOrder(if v.Str? then v.s else "", if v.Dict? then v.entries else []);
    match v {
      case Str(s) => assert IteratedAs(v, vs) ==> vs == Characters(s);
      case Dict(entries) => assert IteratedAs(v, vs) ==> vs == Keys(entries);
      case _ =>
    }
  }

  ghost predicate EachConverts(lib: Library, s: Schema, vs: seq<Value>, cs: seq<Value>)
  {
    |cs| == |vs| && forall k | 0 <= k < |vs| :: ConvertJson(lib, s, vs[k]) == Converted(cs[k])
  }

  /** A value converts to an array exactly when the item schema has a type and each thing that it iterates over
      converts; the array has as many items, each the conversion of the one in its place. */
  lemma ArraysConvert(lib: Library, items: Schema, v: Value, c: Value)
    ensures ConvertJson(lib, ArrayOf(items), v) == Converted(c) <==>
              && !items.Nested? && !items.Untyped? && c.List?
              && exists vs :: IteratedAs(v, vs) && EachConverts(lib, items, vs, c.items)
  {
    hide Iterate, IteratedAs, ConvertAll;
    forall vs ensures Iterate(v) == Some(vs) <==> IteratedAs(v, vs) {
      IterateMeans(v, vs);
    }
    if Iterate(v).Some? {
      ItemsConvert(lib, items, Iterate(v).value, if c.List? then c.items else []);
    }
  }

  /** When conversion succeeds at all: for objects, exactly when every field is one of the schema's properties and
      its value converts; the result then has the same keys in order, each with its value's conversion. */
  lemma {:induction false} EntriesConvert(lib: Library, ps: seq<Property>, entries: seq<Entry>)
    ensures ConvertEntries(lib, ps, entries).Converted? <==>
              forall i | 0 <= i < |entries| ::
                var p := Find(ps, entries[i].key);
                p.Some? && ConvertJson(lib, p.value.schema, entries[i].value).Converted?
    ensures var r := ConvertEntries(lib, ps, entries);
            r.Converted? ==> |r.value| == |entries| && forall i | 0 <= i < |entries| ::
              var p := Find(ps, entries[i].key);
              p.Some? && r.value[i].key == entries[i].key
              && ConvertJson(lib, p.value.schema, entries[i].value) == Converted(r.value[i].value)
    decreases |entries|
  {
    hide ConvertJson, Find;
    if entries != [] {
      EntriesConvert(lib, ps, entries[1..]);
      assert entries == [entries[0]] + entries[1..];
    }
  }

  /** The value is that object, or text that parses to it. */
  ghost predicate IsObject(lib: Library, v: Value, entries: seq<Entry>)
  {
    v == Dict(entries) || (v.Str? && lib.parse(v.s) == Some(Dict(entries)))
  }

  ghost predicate FieldConverts(lib: Library, ps: seq<Property>, field: Entry, converted: Entry)
  {
    var p := Find(ps, field.key);
    p.Some? && converted.key == field.key && ConvertJson(lib, p.value.schema, field.value) == Converted(converted.value)
  }

  lemma FieldsConvert(lib: Library, ps: seq<Property>, entries: seq<Entry>, es: seq<Entry>)
    ensures ConvertEntries(lib, ps, entries) == Converted(es) <==>
              |es| == |entries| && forall k | 0 <= k < |entries| :: FieldConverts(lib, ps, entries[k], es[k])
  {
    hide ConvertJson, Find, ConvertEntries;
    EntriesConvert(lib, ps, entries);
    var r := ConvertEntries(lib, ps, entries);
    if |es| == |entries| && forall k | 0 <= k < |entries| :: FieldConverts(lib, ps, entries[k], es[k]) {
      assert forall k | 0 <= k < |entries| ::
             FieldConverts(lib, ps, entries[k], es[k]) && Find(ps, entries[k].key).Some?;
      assert r.Converted?;
      assert r.value == es;
    }
  }

  /** A value converts to an object exactly when it is one, or text that parses to one, each of whose fields is a
      property and converts; the object has the same keys in order, each with its own value's conversion. Without
      properties it is taken as it is. */
  lemma ObjectsConvert(lib: Library, ps: seq<Property>, v: Value, c: Value)
    ensures ConvertJson(lib, ObjectOf(ps), v) == Converted(c) <==>
              exists entries :: IsObject(lib, v, entries) && c.Dict? && |c.entries| == |entries|
                                && forall k | 0 <= k < |entries| :: FieldConverts(lib, ps, entries[k], c.entries[k])
    ensures ConvertJson(lib, AnyObject, v) == Converted(c) <==> c.Dict? && IsObject(lib, v, c.entries)
  {
    hide ConvertEntries, FieldConverts;
    assert forall entries :: IsObject(lib, v, entries) <==> AsObject(lib, v) == Some(entries);
    if AsObject(lib, v).Some? {
      FieldsConvert(lib, ps, AsObject(lib, v).value, if c.Dict? then c.entries else []);
    }
  }
}
