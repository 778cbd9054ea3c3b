/** The stored elements of a workflow and the world of app functions they call. */
module Elements {
  import opened Json

  type Id = string

  /** What earlier actions, branches and environment variables have left behind, by element id. */
  type Accumulator = map<Id, Value>

  /** An argument holds a value, or, when the value is null, a reference to an accumulator entry. */
  datatype Argument = Argument(name: string, value: Value, reference: Option<Id>, selection: seq<string>)

  datatype Transform = Transform(id: Id, app: string, name: string, arguments: seq<Argument>)

  datatype Condition = Condition(id: Id, app: string, name: string, negated: bool,
                                 arguments: seq<Argument>, transforms: seq<Transform>)

  datatype Operator = And | Or | Xor

  datatype Expression = Expression(id: Id, operator: Operator, negated: bool,
                                   conditions: seq<Condition>, children: seq<Expression>)

  datatype Action = Action(id: Id, app: string, name: string, device: Option<Argument>,
                           arguments: seq<Argument>, trigger: Option<Expression>)

  datatype Edge = Edge(id: Id, source: Id, destination: Id, status: string,
                       condition: Option<Expression>, priority: int)

  datatype Workflow = Workflow(id: Id, start: Id, actions: seq<Action>, branches: seq<Edge>,
                               environment: map<Id, Value>)

  /** One parameter of an app function's API; `required` says that the key is present at all. */
  datatype Param = Param(name: string, default: Option<Value>, required: bool, schema: Value)

  /** The API of a condition or transform: its parameters and the one that receives the data. */
  datatype DataApi = DataApi(dataParam: string, params: seq<Param>)

  datatype ActionResult = ActionResult(result: Value, status: Option<string>)

  /** What a check comes to: a value, an InvalidArgument error, or an error that no caller catches (a TypeError or
      a KeyError). */
  datatype Checked<+T> = Accepts(value: T) | Refuses | Raises

  /** Everything the engine calls out to, as total functions with explicit failures. */
  datatype World = World(
    actionApi: (string, string) -> seq<Param>,
    conditionApi: (string, string) -> DataApi,
    transformApi: (string, string) -> DataApi,
    check: (Param, Value) -> Checked<Value>,
    runAction: (string, string, Option<Value>, map<string, Value>) -> ActionResult,
    runCondition: (string, string, map<string, Value>) -> Option<bool>,    // None: ExecutionError
    runTransform: (string, string, map<string, Value>) -> Option<Value>,   // None: ExecutionError
    defaultStatus: (string, string) -> string,
    isFailure: (string, string, string) -> Option<bool>,         // None: UnknownAppAction, the status is not declared
    invalidResult: Value,                                        // the text of an InvalidArgument error
    parseIndex: string -> Option<int>)                           // None: ValueError

  function NextSelection(w: World, input: Value, selection: string): Option<Value>
  {
    match input
    case Dict(entries) => Lookup(entries, selection)
    case List(items) =>
      (match w.parseIndex(selection)
       case None => None
       case Some(i) =>
         if 0 <= i < |items| then Some(items[i])
         else if -|items| <= i < 0 then Some(items[i + |items|])
         else None)
    case _ => None
  }

  function Select(w: World, input: Value, selection: seq<string>): Option<Value>
  {
    if selection == [] then Some(input)
    else match NextSelection(w, input, selection[0])
      case None => None
      case Some(next) => Select(w, next, selection[1..])
  }

  lemma {:induction false} SelectSnoc(w: World, input: Value, selection: seq<string>, last: string)
    ensures Select(w, input, selection + [last]) ==
            match Select(w, input, selection)
            case None => None
            case Some(v) => NextSelection(w, v, last)
  {
    if selection == [] {
      assert ([last])[1..] == [];
    } else {
      assert (selection + [last])[1..] == selection[1..] + [last];
      if NextSelection(w, input, selection[0]).Some? {
        SelectSnoc(w, NextSelection(w, input, selection[0]).value, selection[1..], last);
      }
    }
  }

  lemma {:induction false} SelectFailsEarly(w: World, input: Value, selection: seq<string>, n: nat)
    requires n <= |selection| && Select(w, input, selection[..n]).None?
    ensures Select(w, input, selection).None?
  {
    if n == 0 {
      assert false;
    } else if NextSelection(w, input, selection[0]).Some? {
      assert selection[..n][1..] == selection[1..][..n-1];
      SelectFailsEarly(w, NextSelection(w, input, selection[0]).value, selection[1..], n - 1);
    }
  }

  /** The selection loop of an argument. */
  method ApplySelection(w: World, input: Value, selection: seq<string>) returns (r: Option<Value>)
    ensures r == Select(w, input, selection)
  {
    var current := input;
    for i := 0 to |selection|
      invariant Select(w, input, selection[..i]) == Some(current)
    {
      assert selection[..i+1] == selection[..i] + [selection[i]];
      SelectSnoc(w, input, selection[..i], selection[i]);
      var next := NextSelection(w, current, selection[i]);
      if next.None? {
        SelectFailsEarly(w, input, selection, i + 1);
        return None;
      }
      current := next.value;
    }
    assert selection[..|selection|] == selection;
    r := Some(current);
  }

  function ReferenceValue(reference: Option<Id>): Value
  {
    match reference case None => Null case Some(id) => Str(id)
  }

  /** The value of an argument; None is an InvalidArgument error. An empty accumulator is falsy, so the
      bare reference comes back. */
  function GetValue(w: World, arg: Argument, acc: Accumulator): Option<Value>
  {
    if arg.value != Null then Some(arg.value)
    else if acc == map[] then Some(ReferenceValue(arg.reference))
    else if arg.reference.Some? && arg.reference.value in acc then Select(w, acc[arg.reference.value], arg.selection)
    else None
  }

  // ---------------------------------------------------------------- what an argument reaches

  /** Field k is the first of that name, and has that value. */
  ghost predicate FirstField(entries: seq<Entry>, key: string, v: Value, k: nat)
  {
    k < |entries| && entries[k] == Entry(key, v) && forall j | 0 <= j < k :: entries[j].key != key
  }

  /** One selector leads from a value to another: to the first field of that name in an object, or to the item at that
      index in a list, a negative index counting from the end. */
  ghost predicate LeadsTo(w: World, v: Value, selector: string, next: Value)
  {
    match v
    case Dict(entries) =>
      exists k: nat :: FirstField(entries, selector, next, k)
    case List(items) =>
      exists k :: 0 <= k < |items| && items[k] == next
                  && (w.parseIndex(selector) == Some(k) || w.parseIndex(selector) == Some(k - |items|))
    case _ => false
  }

  /** The values met on the way along a selection. */
  ghost predicate Way(w: World, values: seq<Value>, selection: seq<string>)
  {
    |values| == |selection| + 1 && forall k | 0 <= k < |selection| :: LeadsTo(w, values[k], selection[k], values[k+1])
  }

  ghost predicate Reaches(w: World, input: Value, selection: seq<string>, r: Value)
  {
    exists values :: Way(w, values, selection) && values[0] == input && values[|selection|] == r
  }

  lemma {:induction false} LookupFinds(entries: seq<Entry>, key: string) returns (k: nat)
    requires Lookup(entries, key).Some?
    ensures FirstField(entries, key, Lookup(entries, key).value, k)
  {
    k := 0;
    if entries[0].key != key {
      var j := LookupFinds(entries[1..], key);
      k := j + 1;
    }
  }

  lemma {:induction false} FirstIsLookedUp(entries: seq<Entry>, key: string, v: Value, k: nat)
    requires FirstField(entries, key, v, k)
    ensures Lookup(entries, key) == Some(v)
  {
    if k > 0 {
      FirstIsLookedUp(entries[1..], key, v, k - 1);
    }
  }

  lemma LookupIsFirst(entries: seq<Entry>, key: string, v: Value)
    ensures Lookup(entries, key) == Some(v) <==> exists k: nat :: FirstField(entries, key, v, k)
  {
    hide Lookup;
    if Lookup(entries, key) == Some(v) {
      var k := LookupFinds(entries, key);
    }
    if k: nat :| FirstField(entries, key, v, k) {
      FirstIsLookedUp(entries, key, v, k);
    }
  }

  lemma OneSelector(w: World, v: Value, selector: string, next: Value)
    ensures NextSelection(w, v, selector) == Some(next) <==> LeadsTo(w, v, selector, next)
  {
    match v {
      case Dict(entries) => LookupIsFirst(entries, selector, next);
      case List(items) =>
        var i := w.parseIndex(selector);
        if i.Some? {
          assert 0 <= i.value < |items| ==> items[i.value] == items[i.value + 0];
          if -|items| <= i.value < 0 {
            var k := i.value + |items|;
            assert i == Some(k - |items|) && 0 <= k < |items|;
          }
        }
      case _ =>
    }
  }

  /** A selection succeeds with a value exactly when its selectors lead there, one after another. */
  lemma {:induction false} SelectReaches(w: World, input: Value, selection: seq<string>, r: Value)
    ensures Select(w, input, selection) == Some(r) <==> Reaches(w, input, selection, r)
    decreases |selection|
  {
    hide NextSelection, LeadsTo;
    if selection == [] {
      if input == r {
        assert Way(w, [input], selection);
      }
    } else {
      var next := NextSelection(w, input, selection[0]);
      if next.Some? {
        SelectReaches(w, next.value, selection[1..], r);
        OneSelector(w, input, selection[0], next.value);
      }
      if Select(w, input, selection) == Some(r) {
        var values :| Way(w, values, selection[1..]) && values[0] == next.value && values[|selection[1..]|] == r;
        WayFrom(w, input, values, selection);
      }
      if values :| Way(w, values, selection) && values[0] == input && values[|selection|] == r {
        WayOn(w, values, selection);
        OneSelector(w, input, selection[0], values[1]);
      }
    }
  }

  lemma WayOn(w: World, values: seq<Value>, selection: seq<string>)
    requires selection != [] && Way(w, values, selection)
    ensures LeadsTo(w, values[0], selection[0], values[1])
    ensures Reaches(w, values[1], selection[1..], values[|selection|])
  {
    hide LeadsTo;
    var shorter, fewer := values[1..], selection[1..];
    forall k | 0 <= k < |fewer| ensures LeadsTo(w, shorter[k], fewer[k], shorter[k+1]) {
      assert shorter[k] == values[k+1] && fewer[k] == selection[k+1] && shorter[k+1] == values[k+2];
    }
    assert Way(w, shorter, fewer);
  }

  lemma WayFrom(w: World, input: Value, values: seq<Value>, selection: seq<string>)
    requires selection != [] && Way(w, values, selection[1..]) && LeadsTo(w, input, selection[0], values[0])
    ensures Reaches(w, input, selection, values[|selection| - 1])
  {
    hide LeadsTo;
    var longer := [input] + values;
    forall k | 0 <= k < |selection| ensures LeadsTo(w, longer[k], selection[k], longer[k+1]) {
      if k > 0 {
        assert longer[k] == values[k-1] && selection[k] == selection[1..][k-1] && longer[k+1] == values[k];
      }
    }
    assert Way(w, longer, selection);
  }

  /** The value of an argument: its own if it has one; otherwise what its selection reaches from the entry that it
      refers to, or the bare reference while the accumulator is empty. */
  lemma ArgumentReaches(w: World, arg: Argument, acc: Accumulator, r: Value)
    ensures GetValue(w, arg, acc) == Some(r) <==>
              || (arg.value != Null && r == arg.value)
              || (arg.value == Null && acc == map[] && (arg.reference == None ==> r == Null)
                  && (arg.reference.Some? ==> r == Str(arg.reference.value)))
              || (arg.value == Null && acc != map[] && arg.reference.Some? && arg.reference.value in acc
                  && Reaches(w, acc[arg.reference.value], arg.selection, r))
  {
    hide Select, Reaches;
    if arg.reference.Some? && arg.reference.value in acc {
      SelectReaches(w, acc[arg.reference.value], arg.selection, r);
    }
  }
}
