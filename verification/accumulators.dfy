/** The externally cached accumulator: many accumulators in one store, told apart by key prefixes. */
module Accumulators {
  import opened Json
  import opened Elements

  /** The cache: every key of every accumulator, and whatever else lives there. */
  type Store = map<string, Value>

  const SEPARATOR := ':'
  const KEY_PREFIX := "accumulator"

  function Prefix(e: Id): string
  {
    KEY_PREFIX + [SEPARATOR] + e + [SEPARATOR]
  }

  function FormatKey(e: Id, key: Id): string
  {
    Prefix(e) + key
  }

  function OwnKeys(store: Store, e: Id): set<string>
  {
    set k | k in store && Prefix(e) <= k
  }

  function OwnNames(store: Store, e: Id): (names: set<Id>)
    ensures forall key :: key in names <==> FormatKey(e, key) in store
  {
    var names := set k | k in OwnKeys(store, e) :: k[|Prefix(e)|..];
    assert forall key :: key in names <==> FormatKey(e, key) in store by {
      forall key ensures key in names <==> FormatKey(e, key) in store {
        assert FormatKey(e, key)[|Prefix(e)|..] == key;
        if key in names {
          var k :| k in OwnKeys(store, e) && k[|Prefix(e)|..] == key;
          assert k == FormatKey(e, key);
        }
      }
    }
    names
  }

  /** The accumulator of one execution, seen as a map. */
  function View(store: Store, e: Id): Accumulator
  {
    map key | key in OwnNames(store, e) :: store[FormatKey(e, key)]
  }

  lemma ViewIs(store: Store, e: Id, key: Id)
    ensures key in View(store, e) <==> FormatKey(e, key) in store
    ensures key in View(store, e) ==> View(store, e)[key] == store[FormatKey(e, key)]
  {
  }

  // ---------------------------------------------------------------- operations

  datatype Op =
    | SetItem(key: Id, value: Value)
    | GetItem(key: Id)
    | DelItem(key: Id)
    | Pop(key: Id, default: Option<Value>)
    | Contains(key: Id)
    | Update(items: seq<Item>)
    | Len
    | Clear

  datatype Item = Item(key: Id, value: Value)

  datatype Reply = Done | KeyError | Found(value: Value) | Truth(b: bool) | Count(n: nat)

  datatype Outcome<T> = Outcome(state: T, reply: Reply)

  function SetAll(store: Store, e: Id, items: seq<Item>): Store
  {
    if items == [] then store
    else SetAll(store, e, items[..|items|-1])[FormatKey(e, items[|items|-1].key) := items[|items|-1].value]
  }

  /** An operation of the accumulator of e on the store. */
  function OnStore(store: Store, e: Id, op: Op): Outcome<Store>
  {
    match op
    case SetItem(k, v) => Outcome(store[FormatKey(e, k) := v], Done)
    case GetItem(k) => Outcome(store, if FormatKey(e, k) in store then Found(store[FormatKey(e, k)]) else KeyError)
    case DelItem(k) =>
      if FormatKey(e, k) in store then Outcome(store - {FormatKey(e, k)}, Done) else Outcome(store, KeyError)
    case Pop(k, default) =>
      if FormatKey(e, k) in store then Outcome(store - {FormatKey(e, k)}, Found(store[FormatKey(e, k)]))
      else Outcome(store, match default case Some(v) => Found(v) case None => KeyError)
    case Contains(k) => Outcome(store, Truth(FormatKey(e, k) in store))
    case Update(items) => Outcome(SetAll(store, e, items), Done)
    case Len => Outcome(store, Count(|OwnKeys(store, e)|))
    case Clear => Outcome(store - OwnKeys(store, e), Done)
  }

  function PutAll(m: Accumulator, items: seq<Item>): Accumulator
  {
    if items == [] then m else PutAll(m, items[..|items|-1])[items[|items|-1].key := items[|items|-1].value]
  }

  /** The same operation on a map. */
  function OnMap(m: Accumulator, op: Op): Outcome<Accumulator>
  {
    match op
    case SetItem(k, v) => Outcome(m[k := v], Done)
    case GetItem(k) => Outcome(m, if k in m then Found(m[k]) else KeyError)
    case DelItem(k) => if k in m then Outcome(m - {k}, Done) else Outcome(m, KeyError)
    case Pop(k, default) =>
      if k in m then Outcome(m - {k}, Found(m[k]))
      else Outcome(m, match default case Some(v) => Found(v) case None => KeyError)
    case Contains(k) => Outcome(m, Truth(k in m))
    case Update(items) => Outcome(PutAll(m, items), Done)
    case Len => Outcome(m, Count(|m|))
    case Clear => Outcome(map[], Done)
  }

  // ---------------------------------------------------------------- one accumulator is a map

  lemma ViewOfSet(store: Store, e: Id, key: Id, v: Value)
    ensures View(store[FormatKey(e, key) := v], e) == View(store, e)[key := v]
  {
    var after := store[FormatKey(e, key) := v];
    forall k
      ensures k in View(after, e) <==> k in View(store, e)[key := v]
      ensures k in View(after, e) ==> View(after, e)[k] == View(store, e)[key := v][k]
    {
      ViewIs(after, e, k);
      ViewIs(store, e, k);
      assert FormatKey(e, k) == FormatKey(e, key) ==>
             FormatKey(e, k)[|Prefix(e)|..] == FormatKey(e, key)[|Prefix(e)|..];
    }
    assert View(after, e).Keys == View(store, e)[key := v].Keys;
  }

  lemma ViewOfRemove(store: Store, e: Id, key: Id)
    ensures View(store - {FormatKey(e, key)}, e) == View(store, e) - {key}
  {
    var after := store - {FormatKey(e, key)};
    forall k
      ensures k in View(after, e) <==> k in View(store, e) - {key}
      ensures k in View(after, e) ==> View(after, e)[k] == (View(store, e) - {key})[k]
    {
      ViewIs(after, e, k);
      ViewIs(store, e, k);
      assert FormatKey(e, k) == FormatKey(e, key) ==>
             FormatKey(e, k)[|Prefix(e)|..] == FormatKey(e, key)[|Prefix(e)|..];
    }
    assert View(after, e).Keys == (View(store, e) - {key}).Keys;
  }

  lemma {:induction false} ViewOfSetAll(store: Store, e: Id, items: seq<Item>)
    ensures View(SetAll(store, e, items), e) == PutAll(View(store, e), items)
  {
    hide View, FormatKey;
    if items != [] {
      var n := |items| - 1;
      ViewOfSetAll(store, e, items[..n]);
      ViewOfSet(SetAll(store, e, items[..n]), e, items[n].key, items[n].value);
    }
  }

  lemma ViewOfClear(store: Store, e: Id)
    ensures View(store - OwnKeys(store, e), e) == map[]
  {
    assert OwnKeys(store - OwnKeys(store, e), e) == {};
    assert OwnNames(store - OwnKeys(store, e), e) == {};
  }

  lemma {:induction false} SuffixesCount(keys: set<string>, n: nat, p: string)
    requires |p| == n && forall k :: k in keys ==> p <= k
    ensures |set k | k in keys :: k[n..]| == |keys|
  {
    var suffixes := set k | k in keys :: k[n..];
    if keys != {} {
      var k :| k in keys;
      SuffixesCount(keys - {k}, n, p);
      var rest := set x | x in keys - {k} :: x[n..];
      assert forall x :: x in keys ==> x == p + x[n..];
      assert k[n..] !in rest;
      assert suffixes == rest + {k[n..]};
    }
  }

  lemma ViewSize(store: Store, e: Id)
    ensures |View(store, e)| == |OwnKeys(store, e)|
  {
    var keys := OwnKeys(store, e);
    SuffixesCount(keys, |Prefix(e)|, Prefix(e));
    assert View(store, e).Keys == OwnNames(store, e);
    assert |View(store, e)| == |View(store, e).Keys|;
  }

  /** Each operation does to the accumulator's own view, and replies, what it does on a map. */
  lemma OwnViewIsMap(store: Store, e: Id, op: Op)
    ensures var c, a := OnStore(store, e, op), OnMap(View(store, e), op);
            c.reply == a.reply && View(c.state, e) == a.state
  {
    hide View, FormatKey, OwnKeys, SetAll, PutAll;
    match op {
      case SetItem(k, v) => ViewOfSet(store, e, k, v);
      case GetItem(k) => ViewIs(store, e, k);
      case DelItem(k) => ViewIs(store, e, k); ViewOfRemove(store, e, k);
      case Pop(k, default) => ViewIs(store, e, k); ViewOfRemove(store, e, k);
      case Contains(k) => ViewIs(store, e, k);
      case Update(items) => ViewOfSetAll(store, e, items);
      case Len => ViewSize(store, e);
      case Clear => ViewOfClear(store, e);
    }
  }

  /** Item i is the last of its key. */
  ghost predicate LastOf(items: seq<Item>, i: nat)
  {
    i < |items| && forall j | i < j < |items| :: items[j].key != items[i].key
  }

  ghost predicate NoneFor(items: seq<Item>, key: Id)
  {
    forall i | 0 <= i < |items| :: items[i].key != key
  }

  /** A map's entries after an update: the last item of each key, and what no item is for. */
  ghost predicate Updated(m: Accumulator, items: seq<Item>, r: Accumulator)
  {
    && (forall i: nat | LastOf(items, i) :: items[i].key in r && r[items[i].key] == items[i].value)
    && forall k | NoneFor(items, k) :: (k in r <==> k in m) && (k in m ==> r[k] == m[k])
  }

  lemma {:induction false} LastIsPut(m: Accumulator, items: seq<Item>, i: nat)
    requires LastOf(items, i)
    ensures items[i].key in PutAll(m, items) && PutAll(m, items)[items[i].key] == items[i].value
    decreases |items|
  {
    var n := |items| - 1;
    if i < n {
      assert items[n].key != items[i].key;
      LastIsPut(m, items[..n], i);
    }
  }

  lemma {:induction false} OthersArePut(m: Accumulator, items: seq<Item>, k: Id)
    requires NoneFor(items, k)
    ensures (k in PutAll(m, items) <==> k in m) && (k in m ==> PutAll(m, items)[k] == m[k])
  {
    if items != [] {
      OthersArePut(m, items[..|items|-1], k);
    }
  }

  lemma PutsAllLast(m: Accumulator, items: seq<Item>)
    ensures Updated(m, items, PutAll(m, items))
  {
    hide PutAll, LastOf, NoneFor;
    forall i: nat | LastOf(items, i)
      ensures i < |items| && items[i].key in PutAll(m, items) && PutAll(m, items)[items[i].key] == items[i].value
    {
      LastIsPut(m, items, i);
      LastIsThere(items, i);
    }
    forall k | NoneFor(items, k)
      ensures (k in PutAll(m, items) <==> k in m) && (k in m ==> PutAll(m, items)[k] == m[k])
    {
      OthersArePut(m, items, k);
    }
  }

  lemma LastIsThere(items: seq<Item>, i: nat)
    requires LastOf(items, i)
    ensures i < |items|
  {
  }

  // ---------------------------------------------------------------- and the others do not see it

  /** Neither execution's prefix extends the other's. */
  predicate Independent(d: Id, e: Id)
  {
    !(Prefix(d) <= Prefix(e)) && !(Prefix(e) <= Prefix(d))
  }

  /** Where two independent prefixes differ. */
  lemma Differ(d: Id, e: Id) returns (i: nat)
    requires Independent(d, e)
    ensures i < |Prefix(d)| && i < |Prefix(e)| && Prefix(d)[i] != Prefix(e)[i]
  {
    var p, q := Prefix(d), Prefix(e);
    var n := if |p| <= |q| then |p| else |q|;
    assert p[..n] != q[..n] by {
      assert |p| == n ==> p[..n] == p;
      assert |q| == n ==> q[..n] == q;
    }
    i :| 0 <= i < n && p[i] != q[i];
  }

  lemma KeysApart(d: Id, e: Id, key: Id)
    requires Independent(d, e)
    ensures !(Prefix(d) <= FormatKey(e, key))
  {
    var i := Differ(d, e);
    assert FormatKey(e, key)[i] == Prefix(e)[i];
  }

  lemma SetApart(store: Store, d: Id, e: Id, key: Id, v: Value)
    requires Independent(d, e)
    ensures View(store[FormatKey(e, key) := v], d) == View(store, d)
  {
    KeysApart(d, e, key);
    forall k ensures FormatKey(d, k) != FormatKey(e, key) {
      assert Prefix(d) <= FormatKey(d, k);
    }
    hide FormatKey;
    assert OwnNames(store[FormatKey(e, key) := v], d) == OwnNames(store, d);
  }

  lemma {:induction false} SetAllApart(store: Store, d: Id, e: Id, items: seq<Item>)
    requires Independent(d, e)
    ensures View(SetAll(store, e, items), d) == View(store, d)
  {
    if items != [] {
      var n := |items| - 1;
      SetAllApart(store, d, e, items[..n]);
      SetApart(SetAll(store, e, items[..n]), d, e, items[n].key, items[n].value);
    }
  }

  lemma ClearApart(store: Store, d: Id, e: Id)
    requires Independent(d, e)
    ensures View(store - OwnKeys(store, e), d) == View(store, d)
  {
    var i := Differ(d, e);
    forall k | k in OwnKeys(store, d) ensures k !in OwnKeys(store, e) {
      assert k[i] == Prefix(d)[i];
    }
    assert OwnKeys(store - OwnKeys(store, e), d) == OwnKeys(store, d);
  }

  lemma OtherViewsStay(store: Store, d: Id, e: Id, op: Op)
    requires Independent(d, e)
    ensures View(OnStore(store, e, op).state, d) == View(store, d)
  {
    hide FormatKey, SetAll, Prefix, Independent;
    match op {
      case Update(items) => SetAllApart(store, d, e, items);
      case Clear => ClearApart(store, d, e);
      case SetItem(k, v) => SetApart(store, d, e, k, v);
      case DelItem(k) => KeysApart(d, e, k); assert OwnKeys(OnStore(store, e, op).state, d) == OwnKeys(store, d);
      case Pop(k, default) => KeysApart(d, e, k); assert OwnKeys(OnStore(store, e, op).state, d) == OwnKeys(store, d);
      case _ =>
    }
  }

  /** Independence is exactly what it takes: if one prefix extends the other, some assignment through one
      accumulator shows in the other. */
  lemma IndependentExactly(d: Id, e: Id)
    ensures Independent(d, e) <==>
              forall store: Store, k, v :: View(OnStore(store, e, SetItem(k, v)).state, d) == View(store, d)
  {
    if Independent(d, e) {
      forall store: Store, k, v ensures View(OnStore(store, e, SetItem(k, v)).state, d) == View(store, d) {
        OtherViewsStay(store, d, e, SetItem(k, v));
      }
    } else {
      var k := if Prefix(d) <= Prefix(e) then "" else Prefix(d)[|Prefix(e)|..];
      var full := FormatKey(e, k);
      assert Prefix(d) <= full;
      var after := OnStore(map[], e, SetItem(k, Null)).state;
      assert after == map[full := Null];
      assert full in OwnKeys(after, d);
      assert full[|Prefix(d)|..] in View(after, d);
      assert View(map[], d) == map[];
    }
  }

  /** Distinct execution ids without the separator are independent. */
  lemma SeparatorFreeIsIndependent(d: Id, e: Id)
    requires SEPARATOR !in d && SEPARATOR !in e && d != e
    ensures Independent(d, e)
  {
    ShorterIsNoPrefix(d, e);
    ShorterIsNoPrefix(e, d);
  }

  lemma ShorterIsNoPrefix(d: Id, e: Id)
    requires SEPARATOR !in d && SEPARATOR !in e && d != e
    ensures !(Prefix(d) <= Prefix(e))
  {
    if |d| <= |e| {
      var i: nat := if |d| < |e| then |d| else FirstDifference(d, e);
      assert (d + [SEPARATOR])[i] != (e + [SEPARATOR])[i];
      var n := |KEY_PREFIX| + 1;
      assert Prefix(d)[n + i] == (d + [SEPARATOR])[i] && Prefix(e)[n + i] == (e + [SEPARATOR])[i];
    }
  }

  function FirstDifference(d: Id, e: Id): (i: nat)
    requires |d| == |e| && d != e
    ensures i < |d| && d[i] != e[i]
  {
    if d[0] != e[0] then 0
    else
      assert d == [d[0]] + d[1..] && e == [e[0]] + e[1..];
      FirstDifference(d[1..], e[1..]) + 1
  }

  // ---------------------------------------------------------------- any sequence of operations

  datatype Call = Call(execution: Id, op: Op)

  datatype History<T> = History(state: T, replies: seq<Reply>)

  function CallsOnStore(store: Store, calls: seq<Call>): History<Store>
  {
    if calls == [] then History(store, [])
    else
      var before := CallsOnStore(store, calls[..|calls|-1]);
      var last := OnStore(before.state, calls[|calls|-1].execution, calls[|calls|-1].op);
      History(last.state, before.replies + [last.reply])
  }

  /** One map for each execution. */
  type Maps = map<Id, Accumulator>

  function CallsOnMaps(maps: Maps, calls: seq<Call>): (h: History<Maps>)
    requires forall c :: c in calls ==> c.execution in maps
    ensures h.state.Keys == maps.Keys
  {
    if calls == [] then History(maps, [])
    else
      var before := CallsOnMaps(maps, calls[..|calls|-1]);
      var call := calls[|calls|-1];
      assert call in calls;
      var last := OnMap(before.state[call.execution], call.op);
      History(before.state[call.execution := last.state], before.replies + [last.reply])
  }

  ghost predicate SeparatorFree(es: set<Id>)
  {
    forall e :: e in es ==> SEPARATOR !in e
  }

  /** Any sequence of operations on any number of accumulators that share a store gets the replies, and leaves
      the contents, of independent maps. */
  lemma {:induction false} StoreRefinesMaps(store: Store, maps: Maps, calls: seq<Call>)
    requires SeparatorFree(maps.Keys) && forall e :: e in maps ==> View(store, e) == maps[e]
    requires forall c :: c in calls ==> c.execution in maps
    ensures var s, m := CallsOnStore(store, calls), CallsOnMaps(maps, calls);
            s.replies == m.replies && forall e :: e in maps ==> View(s.state, e) == m.state[e]
  {
    hide View, OnStore, OnMap;
    if calls != [] {
      var n := |calls| - 1;
      var call := calls[n];
      assert call in calls;
      StoreRefinesMaps(store, maps, calls[..n]);
      var before := CallsOnStore(store, calls[..n]).state;
      OwnViewIsMap(before, call.execution, call.op);
      forall e | e in maps && e != call.execution
        ensures View(OnStore(before, call.execution, call.op).state, e) == View(before, e)
      {
        SeparatorFreeIsIndependent(e, call.execution);
        OtherViewsStay(before, e, call.execution, call.op);
      }
    }
  }

  // ---------------------------------------------------------------- the objects

  /** The connection to the cache; one object serves every accumulator of a process. */
  class Cache {
    var store: Store

    constructor ()
      ensures store == map[]
    {
      store := map[];
    }
  }

  class ExternallyCachedAccumulator {
    const cache: Cache
    const execution: Id

    constructor (cache: Cache, execution: Id)
      ensures this.cache == cache && this.execution == execution
    {
      this.cache := cache;
      this.execution := execution;
    }

    method Assign(key: Id, value: Value)
      modifies cache
      ensures cache.store == OnStore(old(cache.store), execution, SetItem(key, value)).state
      ensures View(cache.store, execution) == View(old(cache.store), execution)[key := value]
    {
      ViewOfSet(cache.store, execution, key, value);
      cache.store := cache.store[FormatKey(execution, key) := value];
    }

    method Get(key: Id) returns (r: Reply)
      ensures r == OnStore(cache.store, execution, GetItem(key)).reply
      ensures var entries := View(cache.store, execution);
              r == if key in entries then Found(entries[key]) else KeyError
    {
      ViewIs(cache.store, execution, key);
      var full := FormatKey(execution, key);
      r := if full in cache.store then Found(cache.store[full]) else KeyError;
    }

    method Delete(key: Id) returns (r: Reply)
      modifies cache
      ensures Outcome(cache.store, r) == OnStore(old(cache.store), execution, DelItem(key))
      ensures View(cache.store, execution) == View(old(cache.store), execution) - {key}
      ensures r == if key in View(old(cache.store), execution) then Done else KeyError
    {
      ViewIs(cache.store, execution, key);
      ViewOfRemove(cache.store, execution, key);
      var full := FormatKey(execution, key);
      if full in cache.store {
        cache.store := cache.store - {full};
        r := Done;
      } else {
        r := KeyError;
      }
    }

    method PopItem(key: Id, default: Option<Value>) returns (r: Reply)
      modifies cache
      ensures Outcome(cache.store, r) == OnStore(old(cache.store), execution, Pop(key, default))
      ensures View(cache.store, execution) == View(old(cache.store), execution) - {key}
      ensures var entries := View(old(cache.store), execution);
              r == if key in entries then Found(entries[key])
                   else if default.Some? then Found(default.value) else KeyError
    {
      ViewIs(cache.store, execution, key);
      ViewOfRemove(cache.store, execution, key);
      var full := FormatKey(execution, key);
      if full in cache.store {
        r := Found(cache.store[full]);
        cache.store := cache.store - {full};
      } else if default.Some? {
        r := Found(default.value);
      } else {
        r := KeyError;
      }
    }

    method UpdateAll(items: seq<Item>)
      modifies cache
      ensures cache.store == OnStore(old(cache.store), execution, Update(items)).state
      ensures Updated(View(old(cache.store), execution), items, View(cache.store, execution))
    {
      hide View, Updated, FormatKey, PutAll;
      for i := 0 to |items|
        invariant cache.store == SetAll(old(cache.store), execution, items[..i])
      {
        assert items[..i+1][..i] == items[..i];
        cache.store := cache.store[FormatKey(execution, items[i].key) := items[i].value];
      }
      assert items[..|items|] == items;
      ViewOfSetAll(old(cache.store), execution, items);
      PutsAllLast(View(old(cache.store), execution), items);
    }

    /** Deletes the accumulator's keys one by one. */
    method ClearAll()
      modifies cache
      ensures cache.store == OnStore(old(cache.store), execution, Clear).state
      ensures View(cache.store, execution) == map[]
    {
      ViewOfClear(cache.store, execution);
      var keys := OwnKeys(cache.store, execution);
      while keys != {}
        invariant keys <= OwnKeys(old(cache.store), execution)
        invariant cache.store == old(cache.store) - (OwnKeys(old(cache.store), execution) - keys)
        decreases |keys|
      {
        var key :| key in keys;
        cache.store := cache.store - {key};
        keys := keys - {key};
      }
    }
  }
}
