/** When one workflow's runs are another's under a renaming of ids. Pausing and copying are both instances:
    ids outside the renaming's domain (branch counters, say) are invisible to both sides. */
module Simulation {
  import opened Json
  import opened Branches
  import opened Elements
  import opened Parameters
  import opened Conditions
  import opened Engine

  type Renaming = imap<Id, Id>

  ghost predicate Injective(m: Renaming)
  {
    forall x, y :: x in m && y in m && m[x] == m[y] ==> x == y
  }

  // ---------------------------------------------------------------- accumulators and arguments

  /** Equal entries under corresponding ids, and emptiness, which the engine tests, is the same. */
  ghost predicate AccSim(m: Renaming, a: Accumulator, b: Accumulator)
  {
    && (a == map[] <==> b == map[])
    && forall k :: k in m ==> (k in a <==> m[k] in b) && (k in a ==> a[k] == b[m[k]])
  }

  ghost predicate ArgSim(m: Renaming, x: Argument, y: Argument)
  {
    && x.name == y.name && x.value == y.value && x.selection == y.selection
    && (x.value == Null ==>
          match x.reference
          case None => y.reference == None
          case Some(r) => r in m && y.reference == Some(m[r]))
  }

  ghost predicate ArgsSim(m: Renaming, xs: seq<Argument>, ys: seq<Argument>)
  {
    |xs| == |ys| && forall i | 0 <= i < |xs| :: ArgSim(m, xs[i], ys[i])
  }

  lemma GetValueSim(w: World, m: Renaming, x: Argument, y: Argument, a: Accumulator, b: Accumulator)
    requires ArgSim(m, x, y) && AccSim(m, a, b) && (x.value == Null ==> a != map[])
    ensures GetValue(w, x, a) == GetValue(w, y, b)
  {
  }

  lemma {:induction false} FindArgumentSim(m: Renaming, xs: seq<Argument>, ys: seq<Argument>, name: string)
    requires ArgsSim(m, xs, ys)
    ensures FindArgument(xs, name).Some? <==> FindArgument(ys, name).Some?
    ensures FindArgument(xs, name).Some? ==> ArgSim(m, FindArgument(xs, name).value, FindArgument(ys, name).value)
  {
    if xs != [] {
      assert ArgSim(m, xs[0], ys[0]);
      if xs[0].name != name {
        assert ArgsSim(m, xs[1..], ys[1..]);
        FindArgumentSim(m, xs[1..], ys[1..], name);
      }
    }
  }

  lemma ParamFitSim(w: World, m: Renaming, p: Param, xs: seq<Argument>, ys: seq<Argument>, a: Accumulator,
                    b: Accumulator)
    requires ArgsSim(m, xs, ys) && AccSim(m, a, b)
    ensures ParamFit(w, p, xs, a) == ParamFit(w, p, ys, b)
  {
    FindArgumentSim(m, xs, ys, p.name);
    var x := FindArgument(xs, p.name);
    if x.Some? && (x.value.value != Null || a != map[]) {
      GetValueSim(w, m, x.value, FindArgument(ys, p.name).value, a, b);
    }
  }

  lemma CheckSim(w: World, m: Renaming, api: seq<Param>, xs: seq<Argument>, ys: seq<Argument>, a: Accumulator,
                 b: Accumulator)
    requires ArgsSim(m, xs, ys) && AccSim(m, a, b)
    ensures CheckParameters(w, api, xs, a) == CheckParameters(w, api, ys, b)
  {
    var dict := ApiDict(api);
    assert Names(xs) == Names(ys) by {
      forall i | 0 <= i < |xs| ensures xs[i].name in Names(ys) && ys[i].name in Names(xs) {
        assert ArgSim(m, xs[i], ys[i]) && xs[i] in xs && ys[i] in ys;
      }
    }
    forall n | n in dict ensures ParamFit(w, dict[n], xs, a) == ParamFit(w, dict[n], ys, b) {
      ParamFitSim(w, m, dict[n], xs, ys, a, b);
    }
    assert AnyEscapes(w, dict, dict.Keys, xs, a) == AnyEscapes(w, dict, dict.Keys, ys, b);
    assert Fitting(w, dict, dict.Keys, xs, a) == Fitting(w, dict, dict.Keys, ys, b);
    assert BoundValues(w, dict, dict.Keys, xs, a) == BoundValues(w, dict, dict.Keys, ys, b);
  }

  // ---------------------------------------------------------------- conditions and expressions

  ghost predicate TransformsSim(m: Renaming, ss: seq<Transform>, ts: seq<Transform>)
  {
    |ss| == |ts| && forall i | 0 <= i < |ss| ::
      ss[i].app == ts[i].app && ss[i].name == ts[i].name && ArgsSim(m, ss[i].arguments, ts[i].arguments)
  }

  ghost predicate ConditionSim(m: Renaming, c: Condition, d: Condition)
  {
    && c.app == d.app && c.name == d.name && c.negated == d.negated
    && ArgsSim(m, c.arguments, d.arguments) && TransformsSim(m, c.transforms, d.transforms)
  }

  ghost predicate ExpressionSim(m: Renaming, e: Expression, f: Expression)
    decreases e
  {
    && e.operator == f.operator && e.negated == f.negated
    && |e.conditions| == |f.conditions| && |e.children| == |f.children|
    && (forall i | 0 <= i < |e.conditions| :: ConditionSim(m, e.conditions[i], f.conditions[i]))
    && (forall i | 0 <= i < |e.children| :: ExpressionSim(m, e.children[i], f.children[i]))
  }

  lemma ArgsSimCons(m: Renaming, x: Argument, y: Argument, xs: seq<Argument>, ys: seq<Argument>)
    requires ArgSim(m, x, y) && ArgsSim(m, xs, ys)
    ensures ArgsSim(m, [x] + xs, [y] + ys)
  {
  }

  lemma {:induction false} OthersSim(m: Renaming, xs: seq<Argument>, ys: seq<Argument>, name: string)
    requires ArgsSim(m, xs, ys)
    ensures ArgsSim(m, Others(xs, name), Others(ys, name))
  {
    if xs != [] {
      assert ArgSim(m, xs[0], ys[0]);
      assert ArgsSim(m, xs[1..], ys[1..]);
      OthersSim(m, xs[1..], ys[1..], name);
      if xs[0].name != name {
        ArgsSimCons(m, xs[0], ys[0], Others(xs[1..], name), Others(ys[1..], name));
      }
    }
  }

  lemma TransformSim(w: World, m: Renaming, s: Transform, t: Transform, data: Value, a: Accumulator, b: Accumulator)
    requires s.app == t.app && s.name == t.name && ArgsSim(m, s.arguments, t.arguments) && AccSim(m, a, b)
    ensures var x, y := ExecuteTransform(w, s, data, a), ExecuteTransform(w, t, data, b);
            x.Burst? == y.Burst? && (x.Transformed? ==> x.data == y.data)
  {
    hide CheckParameters, Others, AccSim, ArgsSim;
    var api := w.transformApi(s.app, s.name);
    OthersSim(m, s.arguments, t.arguments, api.dataParam);
    DataSim(m, s.arguments, t.arguments, api.dataParam, data);
    CheckSim(w, m, api.params, WithData(s.arguments, api.dataParam, data), WithData(t.arguments, api.dataParam, data),
             a, b);
  }

  lemma DataSim(m: Renaming, xs: seq<Argument>, ys: seq<Argument>, dataParam: string, data: Value)
    requires ArgsSim(m, Others(xs, dataParam), Others(ys, dataParam))
    ensures ArgsSim(m, WithData(xs, dataParam, data), WithData(ys, dataParam, data))
  {
    hide Others;
  }

  lemma {:induction false} PipelineSim(w: World, m: Renaming, ss: seq<Transform>, ts: seq<Transform>, data: Value,
                                       a: Accumulator, b: Accumulator)
    requires TransformsSim(m, ss, ts) && AccSim(m, a, b)
    ensures Pipeline(w, ss, data, a).data == Pipeline(w, ts, data, b).data
    ensures Pipeline(w, ss, data, a).raised == Pipeline(w, ts, data, b).raised
  {
    if ss != [] {
      var n := |ss| - 1;
      PipelineSim(w, m, ss[..n], ts[..n], data, a, b);
      TransformSim(w, m, ss[n], ts[n], Pipeline(w, ss[..n], data, a).data, a, b);
      hide ExecuteTransform, ArgsSim, AccSim;
    }
  }

  lemma ConditionHoldsSim(w: World, m: Renaming, c: Condition, d: Condition, data: Value, a: Accumulator,
                          b: Accumulator)
    requires ConditionSim(m, c, d) && AccSim(m, a, b)
    ensures EvalCondition(w, c, data, a).holds == EvalCondition(w, d, data, b).holds
    ensures EvalCondition(w, c, data, a).raised == EvalCondition(w, d, data, b).raised
  {
    hide CheckParameters, Pipeline, Others, TransformsSim, AccSim;
    PipelineSim(w, m, c.transforms, d.transforms, data, a, b);
    var piped := Pipeline(w, c.transforms, data, a).data;
    var api := w.conditionApi(c.app, c.name);
    OthersSim(m, c.arguments, d.arguments, api.dataParam);
    DataSim(m, c.arguments, d.arguments, api.dataParam, piped);
    CheckSim(w, m, api.params, WithData(c.arguments, api.dataParam, piped),
             WithData(d.arguments, api.dataParam, piped), a, b);
  }

  ghost predicate LeavesSim(m: Renaming, a: Condition -> Leaf, b: Condition -> Leaf)
  {
    forall c, d :: ConditionSim(m, c, d) ==> a(c).holds == b(d).holds && a(c).raised == b(d).raised
  }

  /** The same result, and raised or not; what was visited and signalled differs in ids. */
  predicate SameVerdict(x: Verdict, y: Verdict)
  {
    x.holds == y.holds && x.raised == y.raised
  }

  lemma {:induction false} ScanSim(m: Renaming, e: Expression, f: Expression, i: nat, found: bool,
                                   a: Condition -> Leaf, b: Condition -> Leaf)
    requires ExpressionSim(m, e, f) && LeavesSim(m, a, b) && i <= Size(e)
    ensures SameVerdict(Scan(e, i, found, a), Scan(f, i, found, b))
    decreases e, 1, Size(e) - i
  {
    if i < Size(e) {
      if i < |e.conditions| {
        assert ConditionSim(m, e.conditions[i], f.conditions[i]);
      } else {
        VerdictSim(m, e.children[i - |e.conditions|], f.children[i - |e.conditions|], a, b);
      }
      var part := EvalPart(e, i, a);
      assert SameVerdict(part, EvalPart(f, i, b));
      if GoesOn(e, part, found) {
        ScanSim(m, e, f, i + 1, found || part.holds, a, b);
      }
    }
  }

  lemma {:induction false} VerdictSim(m: Renaming, e: Expression, f: Expression, a: Condition -> Leaf,
                                      b: Condition -> Leaf)
    requires ExpressionSim(m, e, f) && LeavesSim(m, a, b)
    ensures SameVerdict(Eval(e, a), Eval(f, b))
    decreases e, 2
  {
    if Size(e) != 0 || e.operator.And? {
      ScanSim(m, e, f, 0, false, a, b);
    }
  }

  lemma EvalSim(w: World, m: Renaming, e: Expression, f: Expression, data: Value, x: Accumulator, y: Accumulator)
    requires ExpressionSim(m, e, f) && AccSim(m, x, y)
    ensures SameVerdict(Eval(e, LeafOf(w, data, x)), Eval(f, LeafOf(w, data, y)))
  {
    hide EvalCondition;
    var a, b := LeafOf(w, data, x), LeafOf(w, data, y);
    forall c, d | ConditionSim(m, c, d) ensures a(c).holds == b(d).holds && a(c).raised == b(d).raised {
      ConditionHoldsSim(w, m, c, d, data, x, y);
    }
    VerdictSim(m, e, f, a, b);
  }

  // ---------------------------------------------------------------- workflows

  ghost predicate ActionSim(m: Renaming, a: Action, b: Action)
  {
    && a.id in m && b.id == m[a.id] && a.app == b.app && a.name == b.name
    && (match a.device case None => b.device == None case Some(d) => b.device.Some? && ArgSim(m, d, b.device.value))
    && ArgsSim(m, a.arguments, b.arguments)
    && (match a.trigger
        case None => b.trigger == None
        case Some(t) => b.trigger.Some? && ExpressionSim(m, t, b.trigger.value))
  }

  ghost predicate EdgeSim(m: Renaming, e: Edge, f: Edge)
  {
    && e.source in m && f.source == m[e.source] && e.destination in m && f.destination == m[e.destination]
    && e.status == f.status && e.priority == f.priority
    && (match e.condition case None => f.condition == None
        case Some(c) => f.condition.Some? && ExpressionSim(m, c, f.condition.value))
  }

  ghost predicate WorkflowSim(m: Renaming, f: Workflow, g: Workflow)
  {
    && |f.actions| == |g.actions| && |f.branches| == |g.branches|
    && (forall i | 0 <= i < |f.actions| :: ActionSim(m, f.actions[i], g.actions[i]))
    && (forall i | 0 <= i < |f.branches| :: EdgeSim(m, f.branches[i], g.branches[i]))
    && (forall i | 0 <= i < |f.branches| :: f.branches[i].id !in m)
    && (forall i, k | 0 <= i < |g.branches| && k in m :: m[k] != g.branches[i].id)
  }

  lemma {:induction false} FindActionSim(m: Renaming, xs: seq<Action>, ys: seq<Action>, id: Id)
    requires Injective(m) && id in m && |xs| == |ys|
    requires forall i | 0 <= i < |xs| :: ActionSim(m, xs[i], ys[i])
    ensures FindAction(xs, id).Some? <==> FindAction(ys, m[id]).Some?
    ensures FindAction(xs, id).Some? ==> ActionSim(m, FindAction(xs, id).value, FindAction(ys, m[id]).value)
  {
    if xs != [] && xs[0].id != id {
      FindActionSim(m, xs[1..], ys[1..], id);
    }
  }

  lemma {:induction false} InsertSim(m: Renaming, f: Workflow, g: Workflow, i: nat, sorted: seq<nat>)
    requires WorkflowSim(m, f, g) && i < |f.branches| && Positions(f, sorted)
    ensures StableInsert(f, i, sorted) == StableInsert(g, i, sorted)
  {
    if sorted != [] && f.branches[i].priority > f.branches[sorted[0]].priority {
      InsertSim(m, f, g, i, sorted[1..]);
    }
  }

  lemma SameBranches(m: Renaming, f: Workflow, g: Workflow)
    requires WorkflowSim(m, f, g)
    ensures |f.branches| == |g.branches|
  {
  }

  lemma SourceSim(m: Renaming, f: Workflow, g: Workflow, source: Id, n: nat)
    requires Injective(m) && WorkflowSim(m, f, g) && source in m && n < |f.branches|
    ensures |f.branches| == |g.branches| && (g.branches[n].source == m[source] <==> f.branches[n].source == source)
  {
    hide ActionSim, ExpressionSim;
    assert EdgeSim(m, f.branches[n], g.branches[n]);
  }

  lemma {:induction false} OutgoingSim(m: Renaming, f: Workflow, g: Workflow, source: Id, n: nat)
    requires Injective(m) && WorkflowSim(m, f, g) && source in m && n <= |f.branches|
    ensures |f.branches| == |g.branches| && Outgoing(f, source, n) == Outgoing(g, m[source], n)
    decreases |f.branches| - n
  {
    hide StableInsert, WorkflowSim, Injective;
    SameBranches(m, f, g);
    if n < |f.branches| {
      SourceSim(m, f, g, source, n);
      OutgoingSim(m, f, g, source, n + 1);
      if f.branches[n].source == source {
        InsertSim(m, f, g, n, Outgoing(f, source, n + 1));
      }
    }
  }

  lemma TakeableSim(w: World, m: Renaming, e: Edge, f: Edge, status: string, current: Id, a: Accumulator,
                    b: Accumulator)
    requires EdgeSim(m, e, f) && AccSim(m, a, b) && current in m && current in a && m[current] in b
    ensures Takeable(w, e, status, current, a) == Takeable(w, f, status, m[current], b)
    ensures Breaks(w, e, status, current, a) == Breaks(w, f, status, m[current], b)
  {
    hide Eval;
    if e.condition.Some? {
      EvalSim(w, m, e.condition.value, f.condition.value, a[current], a, b);
    }
  }

  lemma CountSim(m: Renaming, f: Workflow, g: Workflow, i: nat, c: Cells, d: Cells)
    requires WorkflowSim(m, f, g) && AccSim(m, c.acc, d.acc)
    requires i < |f.branches| == |c.counters| == |d.counters|
    ensures AccSim(m, Count(f, i, c).acc, Count(g, i, d).acc)
  {
    assert f.branches[i].id in Count(f, i, c).acc && g.branches[i].id in Count(g, i, d).acc;
  }

  lemma {:induction false} ChooseSim(w: World, m: Renaming, f: Workflow, g: Workflow, js: seq<nat>, status: string,
                                     current: Id,
                                     c: Cells, d: Cells)
    requires WorkflowSim(m, f, g) && AccSim(m, c.acc, d.acc) && Positions(f, js)
    requires |f.branches| == |c.counters| == |d.counters|
    requires current in m && current in c.acc && m[current] in d.acc
    ensures var x := Choose(w, f, js, status, current, c);
            var y := Choose(w, g, js, status, m[current], d);
            && x.taken == y.taken && x.trace == y.trace && x.examined == y.examined && x.raised == y.raised
            && AccSim(m, x.cells.acc, y.cells.acc)
  {
    if js != [] {
      var i := js[0];
      assert EdgeSim(m, f.branches[i], g.branches[i]);
      CountSim(m, f, g, i, c, d);
      var c', d' := Count(f, i, c), Count(g, i, d);
      TakeableSim(w, m, f.branches[i], g.branches[i], status, current, c'.acc, d'.acc);
      hide AccSim, WorkflowSim, Takeable, Breaks;
      if !Takeable(w, f.branches[i], status, current, c'.acc) && !Breaks(w, f.branches[i], status, current, c'.acc) {
        ChooseSim(w, m, f, g, js[1..], status, current, c', d');
      }
    }
  }

  // ---------------------------------------------------------------- runs

  ghost predicate EventSim(m: Renaming, x: Event, y: Event)
  {
    match x
    case WorkflowShutdown(data) => y.WorkflowShutdown? && AccSim(m, data, y.data)
    case WorkflowPaused(a) => a in m && y == WorkflowPaused(m[a])
    case ActionStarted(a, e) => a in m && y == ActionStarted(m[a], e)
    case TriggerActionAwaitingData(a, e) => a in m && y == TriggerActionAwaitingData(m[a], e)
    case ActionArgumentsInvalid(a, e) => a in m && y == ActionArgumentsInvalid(m[a], e)
    case ActionExecutionError(a, e, r, s) => a in m && y == ActionExecutionError(m[a], e, r, s)
    case ActionExecutionSuccess(a, e, r, s) => a in m && y == ActionExecutionSuccess(m[a], e, r, s)
    case _ => x == y
  }

  ghost predicate TraceSim(m: Renaming, xs: seq<Event>, ys: seq<Event>)
  {
    |xs| == |ys| && forall i | 0 <= i < |xs| :: EventSim(m, xs[i], ys[i])
  }

  ghost predicate OutcomeSim(m: Renaming, x: Outcome, y: Outcome)
  {
    match x
    case Paused(a) => a in m && y == Paused(m[a])
    case Aborted(a) => a in m && y == Aborted(m[a])
    case AwaitingData(a) => a in m && y == AwaitingData(m[a])
    case Abandoned(a) => a in m && y == Abandoned(m[a])
    case Failed(a, inside) => a in m && y == Failed(m[a], inside)
    case _ => x == y
  }

  /** A device that is a reference is read as the bare id while the accumulator is empty. */
  ghost predicate SameDevice(m: Renaming, a: Action)
  {
    a.device.Some? && a.device.value.value == Null && a.device.value.reference.Some? ==>
      var r := a.device.value.reference.value; r in m && m[r] == r
  }

  /** The next action does not get to show a device id that the renaming changes: it has none, or it waits for
      its trigger. */
  ghost predicate DeviceUnseen(m: Renaming, f: Workflow, s: State)
  {
    match NextAction(f, s)
    case None => true
    case Some(a) => SameDevice(m, a) || (a.trigger.Some? && !s.resume)
  }

  ghost predicate TriggerFree(f: Workflow)
  {
    forall a :: a in f.actions ==> a.trigger.None?
  }

  ghost predicate StateSim(m: Renaming, f: Workflow, g: Workflow, s: State, t: State)
  {
    && Fits(f, s) && Fits(g, t)
    && (match s.next case None => t.next == None case Some(a) => a in m && t.next == Some(m[a]))
    && AccSim(m, s.cells.acc, t.cells.acc) && ArgsSim(m, s.args, t.args)
    && (s.resume == t.resume || TriggerFree(f)) && s.execution == t.execution
    && (s.cells.acc == map[] ==> DeviceUnseen(m, f, s))
  }

  ghost predicate DoneSim(m: Renaming, x: Done, y: Done)
  {
    match x
    case Crashed => y.Crashed?
    case Awaiting(trace) => y.Awaiting? && TraceSim(m, trace, y.trace)
    case Threw(trace, written) => y.Threw? && TraceSim(m, trace, y.trace) && y.written == written
    case Executed(trace, result, status) =>
      y.Executed? && TraceSim(m, trace, y.trace) && y.result == result && y.status == status
  }

  lemma DeviceSim(w: World, m: Renaming, a: Action, b: Action, x: Accumulator, y: Accumulator)
    requires ActionSim(m, a, b) && AccSim(m, x, y) && (x == map[] ==> SameDevice(m, a))
    ensures ResolveDevice(w, a, x) == ResolveDevice(w, b, y)
  {
    if a.device.Some? && (x != map[] || a.device.value.value != Null) {
      GetValueSim(w, m, a.device.value, b.device.value, x, y);
    }
  }

  lemma EmptyResolves(w: World, a: Action)
    ensures ResolveDevice(w, a, map[]).Some?
  {
  }

  lemma CheckedSim(w: World, m: Renaming, a: Action, b: Action, xs: seq<Argument>, ys: seq<Argument>, x: Accumulator,
                   y: Accumulator)
    requires ActionSim(m, a, b) && ArgsSim(m, xs, ys) && AccSim(m, x, y)
    ensures CheckedArguments(w, a, xs, x) == CheckedArguments(w, b, ys, y)
  {
    hide CheckParameters;
    CheckSim(w, m, w.actionApi(a.app, a.name), if xs != [] then xs else a.arguments,
             if ys != [] then ys else b.arguments, x, y);
  }

  lemma CallSim(w: World, m: Renaming, a: Action, b: Action, device: Option<Value>,
                checked: Checked<map<string, Value>>, execution: nat)
    requires a.id in m && b.id == m[a.id] && a.app == b.app && a.name == b.name
    ensures DoneSim(m, Call(w, a, device, checked, execution), Call(w, b, device, checked, execution))
  {
  }

  lemma ExecuteSim(w: World, m: Renaming, f: Workflow, g: Workflow, a: Action, b: Action, s: State, t: State)
    requires NextAction(f, s) == Some(a) && ActionSim(m, a, b) && StateSim(m, f, g, s, t)
    ensures DoneSim(m, Execute(w, a, s.args, s.resume, s.execution, s.cells.acc),
                    Execute(w, b, t.args, t.resume, t.execution, t.cells.acc))
  {
    hide ResolveDevice, CheckedArguments, Call;
    if s.cells.acc == map[] && !SameDevice(m, a) {
      EmptyResolves(w, a);
      EmptyResolves(w, b);
    } else {
      DeviceSim(w, m, a, b, s.cells.acc, t.cells.acc);
    }
    CheckedSim(w, m, a, b, s.args, t.args, s.cells.acc, t.cells.acc);
    var device := ResolveDevice(w, a, s.cells.acc);
    if device.Some? {
      CallSim(w, m, a, b, device.value, CheckedArguments(w, a, s.args, s.cells.acc), s.execution);
    }
  }

  lemma WriteSim(m: Renaming, x: Accumulator, y: Accumulator, id: Id, v: Value)
    requires Injective(m) && AccSim(m, x, y) && id in m
    ensures AccSim(m, x[id := v], y[m[id] := v])
  {
    assert id in x[id := v] && m[id] in y[m[id] := v];
  }

  lemma WrittenSim(m: Renaming, f: Workflow, g: Workflow, s: State, t: State, a: Action, b: Action, v: Value)
    requires Injective(m) && StateSim(m, f, g, s, t) && a.id in m && b.id == m[a.id]
    ensures AccSim(m, Written(s, a, v).acc, Written(t, b, v).acc) && Written(s, a, v).acc != map[]
  {
    WriteSim(m, s.cells.acc, t.cells.acc, a.id, v);
    assert a.id in Written(s, a, v).acc;
  }

  lemma FollowingSim(w: World, m: Renaming, f: Workflow, g: Workflow, s: State, t: State, a: Action, b: Action, x: Done,
                     y: Done)
    requires Injective(m) && WorkflowSim(m, f, g) && StateSim(m, f, g, s, t)
    requires a.id in m && b.id == m[a.id] && x.Executed? && y.Executed? && DoneSim(m, x, y)
    ensures var i, j := Following(w, f, s, a, x), Following(w, g, t, b, y);
            && i.taken == j.taken && i.trace == j.trace && i.examined == j.examined && i.raised == j.raised
            && AccSim(m, i.cells.acc, j.cells.acc) && TraceSim(m, i.trace, j.trace)
  {
    WrittenSim(m, f, g, s, t, a, b, x.result);
    hide Choose, Outgoing, AccSim, WorkflowSim, Injective, TraceSim;
    SameBranches(m, f, g);
    OutgoingSim(m, f, g, a.id, 0);
    var js := Outgoing(f, a.id, 0);
    ChooseSim(w, m, f, g, js, x.status, a.id, Written(s, a, x.result), Written(t, b, y.result));
    ChoiceTrace(w, f, js, x.status, a.id, Written(s, a, x.result));
    BranchEventsSim(m, Following(w, f, s, a, x).trace);
  }

  lemma BranchEventsSim(m: Renaming, trace: seq<Event>)
    requires BranchEvents(trace)
    ensures TraceSim(m, trace, trace)
  {
    forall k | 0 <= k < |trace| ensures EventSim(m, trace[k], trace[k]) {
      assert trace[k] in trace;
    }
  }

  lemma AfterSim(w: World, m: Renaming, f: Workflow, g: Workflow, s: State, t: State, a: Action, b: Action, x: Done,
                 y: Done)
    requires Injective(m) && WorkflowSim(m, f, g) && StateSim(m, f, g, s, t)
    requires a.id in m && b.id == m[a.id] && x.Executed? && y.Executed? && DoneSim(m, x, y)
    ensures var i, j := After(w, f, s, a, x), After(w, g, t, b, y);
            TraceSim(m, i.trace, j.trace) && i.examined == j.examined && StateSim(m, f, g, i.state, j.state)
  {
    FollowingSim(w, m, f, g, s, t, a, b, x, y);
    NextSim(w, m, f, g, s, t, a, b, x, y);
    AfterIs(w, f, s, a, x);
    AfterIs(w, g, t, b, y);
    var c, d := Following(w, f, s, a, x), Following(w, g, t, b, y);
    var i, j := After(w, f, s, a, x), After(w, g, t, b, y);
    assert s.resume == t.resume || TriggerFree(f);
    assert s.execution == t.execution && TraceSim(m, x.trace, y.trace);
    hide *;
    TracesConcatSim(m, x.trace, c.trace, y.trace, d.trace);
    BoundarySim(m, f, g, i.state, j.state);
  }

  lemma TracesConcatSim(m: Renaming, a: seq<Event>, b: seq<Event>, c: seq<Event>, d: seq<Event>)
    requires TraceSim(m, a, c) && TraceSim(m, b, d)
    ensures TraceSim(m, a + b, c + d)
  {
    hide EventSim;
  }

  /** Two states between actions, with a result already in the accumulator. */
  lemma BoundarySim(m: Renaming, f: Workflow, g: Workflow, s: State, t: State)
    requires Fits(f, s) && Fits(g, t) && s.cells.acc != map[] && AccSim(m, s.cells.acc, t.cells.acc)
    requires match s.next case None => t.next == None case Some(a) => a in m && t.next == Some(m[a])
    requires s.args == t.args == [] && (s.resume == t.resume || TriggerFree(f)) && s.execution == t.execution
    ensures StateSim(m, f, g, s, t)
  {
    hide AccSim;
  }

  lemma AfterIs(w: World, f: Workflow, s: State, a: Action, x: Done)
    requires Fits(f, s) && x.Executed?
    ensures var c, i := Following(w, f, s, a, x), After(w, f, s, a, x);
            && Fits(f, i.state) && i.state.cells.acc != map[]
            && i.trace == x.trace + c.trace && i.examined == c.examined && i.state.cells == c.cells
            && i.state.args == [] && i.state.resume == s.resume && i.state.execution == s.execution + 1
  {
    hide Following;
  }

  lemma NextSim(w: World, m: Renaming, f: Workflow, g: Workflow, s: State, t: State, a: Action, b: Action, x: Done,
                y: Done)
    requires WorkflowSim(m, f, g) && Fits(f, s) && Fits(g, t) && x.Executed? && y.Executed?
    requires Following(w, f, s, a, x).taken == Following(w, g, t, b, y).taken
    ensures match After(w, f, s, a, x).state.next
            case None => After(w, g, t, b, y).state.next == None
            case Some(n) => n in m && After(w, g, t, b, y).state.next == Some(m[n])
  {
    hide Following, ExpressionSim, ActionSim;
    var choice := Following(w, f, s, a, x);
    assert choice.taken.Some? ==> EdgeSim(m, f.branches[choice.taken.value], g.branches[choice.taken.value]);
  }

  ghost predicate RunSim(m: Renaming, f: Workflow, g: Workflow, x: Run, y: Run)
  {
    && TraceSim(m, x.trace, y.trace) && x.examined == y.examined && OutcomeSim(m, x.outcome, y.outcome)
    && (!x.outcome.Completed? ==> StateSim(m, f, g, x.final, y.final))
  }

  lemma StoppedSim(m: Renaming, f: Workflow, g: Workflow, s: State, t: State, a: Action, b: Action)
    requires StateSim(m, f, g, s, t) && a.id in m && b.id == m[a.id]
    ensures RunSim(m, f, g, Run([WorkflowPaused(a.id)], [], Paused(a.id), s),
                   Run([WorkflowPaused(b.id)], [], Paused(b.id), t))
    ensures RunSim(m, f, g, Run([WorkflowAborted], [], Aborted(a.id), s), Run([WorkflowAborted], [], Aborted(b.id), t))
    ensures RunSim(m, f, g, Run([], [], Failed(a.id, false), s), Run([], [], Failed(b.id, false), t))
  {
    hide StateSim;
  }

  lemma WaitingSim(m: Renaming, f: Workflow, g: Workflow, s: State, t: State, a: Action, b: Action, x: seq<Event>,
                   y: seq<Event>)
    requires StateSim(m, f, g, s, t) && a.id in m && b.id == m[a.id] && TraceSim(m, x, y)
    ensures RunSim(m, f, g, Run(x, [], AwaitingData(a.id), s.(execution := s.execution + 1)),
                   Run(y, [], AwaitingData(b.id), t.(execution := t.execution + 1)))
  {
    hide ArgsSim, AccSim, TraceSim;
  }

  lemma ThrewSim(m: Renaming, f: Workflow, g: Workflow, s: State, t: State, a: Action, b: Action,
                 x: seq<Event>, y: seq<Event>, written: Option<Value>)
    requires Injective(m) && StateSim(m, f, g, s, t) && a.id in m && b.id == m[a.id] && TraceSim(m, x, y)
    ensures var c := if written.Some? then Written(s, a, written.value) else s.cells;
            var d := if written.Some? then Written(t, b, written.value) else t.cells;
            RunSim(m, f, g, Run(x, [], Failed(a.id, true), s.(cells := c, execution := s.execution + 1)),
                   Run(y, [], Failed(b.id, true), t.(cells := d, execution := t.execution + 1)))
  {
    if written.Some? {
      WrittenSim(m, f, g, s, t, a, b, written.value);
    }
    hide ArgsSim, AccSim, TraceSim, Injective, TriggerFree;
  }

  lemma AbandonedSim(m: Renaming, f: Workflow, g: Workflow, s: State, t: State, a: Action, b: Action,
                     x: seq<Event>, y: seq<Event>, result: Value)
    requires Injective(m) && StateSim(m, f, g, s, t) && a.id in m && b.id == m[a.id] && TraceSim(m, x, y)
    ensures RunSim(m, f, g, Run(x, [], Abandoned(a.id),
                                State(s.next, Written(s, a, result), [], s.resume, s.execution + 1)),
                   Run(y, [], Abandoned(b.id), State(t.next, Written(t, b, result), [], t.resume, t.execution + 1)))
  {
    WrittenSim(m, f, g, s, t, a, b, result);
    hide AccSim, TraceSim, Injective, TriggerFree, DeviceUnseen;
  }

  lemma BrokeSim(m: Renaming, f: Workflow, g: Workflow, a: Action, b: Action, i: Advance, j: Advance)
    requires TraceSim(m, i.trace, j.trace) && i.examined == j.examined && StateSim(m, f, g, i.state, j.state)
    requires a.id in m && b.id == m[a.id]
    ensures RunSim(m, f, g, Run(i.trace, i.examined, Failed(a.id, false), i.state),
                   Run(j.trace, j.examined, Failed(b.id, false), j.state))
  {
    hide StateSim, TraceSim;
  }

  ghost predicate TurnsSim(m: Renaming, f: Workflow, g: Workflow, x: Turn, y: Turn)
  {
    match x
    case Ended(p) => y.Ended? && RunSim(m, f, g, p, y.run)
    case Went(i) =>
      y.Went? && TraceSim(m, i.trace, y.step.trace) && i.examined == y.step.examined
      && StateSim(m, f, g, i.state, y.step.state)
  }

  lemma TurnAfterSim(w: World, m: Renaming, f: Workflow, g: Workflow, s: State, t: State, a: Action, b: Action, x: Done,
                     y: Done)
    requires Injective(m) && WorkflowSim(m, f, g) && StateSim(m, f, g, s, t)
    requires a.id in m && b.id == m[a.id] && x.Executed? && y.Executed? && DoneSim(m, x, y)
    ensures TurnsSim(m, f, g, TurnAfter(w, f, s, a, x), TurnAfter(w, g, t, b, y))
  {
    assert Fits(f, s) && Fits(g, t);
    hide After, Following, StateSim, WorkflowSim, Injective, RunSim, TraceSim;
    if x.status == TRIGGER {
      AbandonedSim(m, f, g, s, t, a, b, x.trace, y.trace, x.result);
    } else {
      FollowingSim(w, m, f, g, s, t, a, b, x, y);
      AfterSim(w, m, f, g, s, t, a, b, x, y);
      BrokeSim(m, f, g, a, b, After(w, f, s, a, x), After(w, g, t, b, y));
    }
  }

  lemma DidSim(w: World, m: Renaming, f: Workflow, g: Workflow, s: State, t: State, a: Action, b: Action, x: Done,
               y: Done)
    requires Injective(m) && WorkflowSim(m, f, g) && StateSim(m, f, g, s, t)
    requires a.id in m && b.id == m[a.id] && DoneSim(m, x, y)
    ensures TurnsSim(m, f, g, Did(w, f, s, a, x), Did(w, g, t, b, y))
  {
    assert Fits(f, s) && Fits(g, t);
    hide TurnAfter, StateSim, WorkflowSim, Injective, RunSim, TraceSim;
    match x {
      case Crashed => StoppedSim(m, f, g, s, t, a, b);
      case Awaiting(_) => WaitingSim(m, f, g, s, t, a, b, x.trace, y.trace);
      case Threw(_, written) => ThrewSim(m, f, g, s, t, a, b, x.trace, y.trace, written);
      case Executed(_, _, _) => TurnAfterSim(w, m, f, g, s, t, a, b, x, y);
    }
  }

  lemma TurnSim(w: World, m: Renaming, f: Workflow, g: Workflow, s: State, t: State, a: Action, b: Action, flags: Flags)
    requires Injective(m) && WorkflowSim(m, f, g) && StateSim(m, f, g, s, t)
    requires NextAction(f, s) == Some(a) && ActionSim(m, a, b)
    ensures TurnsSim(m, f, g, TakeTurn(w, f, s, a, flags), TakeTurn(w, g, t, b, flags))
  {
    assert Fits(f, s) && Fits(g, t);
    assert a in f.actions && a.id in m && b.id == m[a.id];
    ExecuteSim(w, m, f, g, a, b, s, t);
    hide Execute, Did, StateSim, ActionSim, WorkflowSim, Injective, RunSim, TraceSim, OutcomeSim, NextAction, DoneSim;
    StoppedSim(m, f, g, s, t, a, b);
    DidSim(w, m, f, g, s, t, a, b, Execute(w, a, s.args, s.resume, s.execution, s.cells.acc),
           Execute(w, b, t.args, t.resume, t.execution, t.cells.acc));
  }

  lemma ThenSim(m: Renaming, f: Workflow, g: Workflow, i: Advance, j: Advance, x: Run, y: Run)
    requires TraceSim(m, i.trace, j.trace) && i.examined == j.examined && RunSim(m, f, g, x, y)
    ensures RunSim(m, f, g, Then(i, x), Then(j, y))
  {
    hide EventSim, StateSim;
  }

  /** Related states of related workflows have related runs, whatever control flags are raised. */
  lemma {:induction false} RunsAreRelated(w: World, m: Renaming, f: Workflow, g: Workflow, s: State, t: State,
                                          schedule: seq<Flags>)
    requires Injective(m) && WorkflowSim(m, f, g) && StateSim(m, f, g, s, t)
    ensures RunSim(m, f, g, RunFrom(w, f, s, schedule), RunFrom(w, g, t, schedule))
    decreases |schedule|
  {
    hide TakeTurn, Then, RunSim;
    if s.next.Some? {
      FindActionSim(m, f.actions, g.actions, s.next.value);
    }
    var a := NextAction(f, s);
    if a.None? || schedule == [] {
      EndSim(w, m, f, g, s, t, schedule);
    } else {
      var b := NextAction(g, t);
      TurnSim(w, m, f, g, s, t, a.value, b.value, schedule[0]);
      var x, y := TakeTurn(w, f, s, a.value, schedule[0]), TakeTurn(w, g, t, b.value, schedule[0]);
      if x.Went? {
        RunsAreRelated(w, m, f, g, x.step.state, y.step.state, schedule[1..]);
        ThenSim(m, f, g, x.step, y.step, RunFrom(w, f, x.step.state, schedule[1..]),
                RunFrom(w, g, y.step.state, schedule[1..]));
      }
    }
  }

  lemma EndSim(w: World, m: Renaming, f: Workflow, g: Workflow, s: State, t: State, schedule: seq<Flags>)
    requires StateSim(m, f, g, s, t) && (NextAction(f, s).None? <==> NextAction(g, t).None?)
    requires NextAction(f, s).None? || schedule == []
    ensures RunSim(m, f, g, RunFrom(w, f, s, schedule), RunFrom(w, g, t, schedule))
  {
  }
}
