/** Errors that go uncaught inside an action, and the status that makes a run return: exactly what they leave, what
    rules them out, and an input for each. */
module Raising {
  import opened Json
  import opened Branches
  import opened Elements
  import opened Parameters
  import opened Engine
  import opened Schemas
  import opened Statuses
  import opened Traces

  // ---------------------------------------------------------------- when an action raises

  /** Executing the action with its own arguments, past any trigger, raises an error that nothing catches. */
  ghost predicate Throws(w: World, a: Action, acc: Accumulator)
  {
    Execute(w, a, [], true, 0, acc).Threw?
  }

  lemma ThrowsWithArguments(w: World, a: Action, args: seq<Argument>, resume: bool, n: nat, acc: Accumulator)
    requires Execute(w, a, args, resume, n, acc).Threw?
    ensures Throws(w, a.(arguments := if args != [] then args else a.arguments), acc)
  {
    hide CheckParameters, ResolveDevice;
    var b := a.(arguments := if args != [] then args else a.arguments);
    assert CheckedArguments(w, b, [], acc) == CheckedArguments(w, a, args, acc);
    assert ResolveDevice(w, b, acc) == ResolveDevice(w, a, acc) by { SameDevice(w, a, b, acc); }
  }

  lemma SameDevice(w: World, a: Action, b: Action, acc: Accumulator)
    requires a.device == b.device
    ensures ResolveDevice(w, a, acc) == ResolveDevice(w, b, acc)
  {
  }

  lemma TurnRaises(w: World, f: Workflow, s: State, a: Action, flags: Flags)
    requires Fits(f, s)
    ensures var t := TakeTurn(w, f, s, a, flags);
            var done := Execute(w, a, s.args, s.resume, s.execution, s.cells.acc);
            t.Ended? && RaisedInside(t.run.outcome) <==> !flags.pause && !flags.abort && done.Threw?
  {
    hide Execute, After, Following;
  }

  /** The run of a request raises inside an action under some schedule. */
  ghost predicate CanRaise(w: World, f: Workflow, s: State)
    requires Fits(f, s)
  {
    exists schedule :: RaisedInside(RunFrom(w, f, s, schedule).outcome)
  }

  lemma {:induction false} RaisingThrows(w: World, f: Workflow, s: State, schedule: seq<Flags>)
    returns (a: Action, acc: Accumulator)
    requires Fits(f, s) && RaisedInside(RunFrom(w, f, s, schedule).outcome)
    ensures Throws(w, a, acc)
    decreases |schedule|
  {
    hide TakeTurn, Throws, Execute;
    var action := NextAction(f, s).value;
    TurnRaises(w, f, s, action, schedule[0]);
    var turn := TakeTurn(w, f, s, action, schedule[0]);
    if turn.Went? {
      a, acc := RaisingThrows(w, f, turn.step.state, schedule[1..]);
    } else {
      ThrowsWithArguments(w, action, s.args, s.resume, s.execution, s.cells.acc);
      a, acc := action.(arguments := if s.args != [] then s.args else action.arguments), s.cells.acc;
    }
  }

  /** A workflow of one action. */
  function Alone(a: Action, environment: map<Id, Value>): Workflow
  {
    Workflow("w", a.id, [a], [], environment)
  }

  lemma ThrowingRaises(w: World, a: Action, acc: Accumulator)
    requires Throws(w, a, acc)
    ensures CanRaise(w, Alone(a, map[]), State(Some(a.id), Cells(acc, []), [], true, 0))
  {
    hide Execute, After, Following;
    var f, s := Alone(a, map[]), State(Some(a.id), Cells(acc, []), [], true, 0);
    assert NextAction(f, s) == Some(a);
    TurnRaises(w, f, s, a, QUIET);
    hide TakeTurn;
    assert [QUIET][0] == QUIET;
    assert RaisedInside(RunFrom(w, f, s, [QUIET]).outcome);
  }

  /** In a world no run of any workflow raises inside an action, exactly when no single action does. */
  lemma NoRunRaisesExactly(w: World)
    ensures (forall f, s :: Fits(f, s) ==> !CanRaise(w, f, s)) <==> (forall a, acc :: !Throws(w, a, acc))
  {
    hide Throws, RunFrom;
    if forall f, s :: Fits(f, s) ==> !CanRaise(w, f, s) {
      forall a, acc ensures !Throws(w, a, acc) {
        if Throws(w, a, acc) {
          ThrowingRaises(w, a, acc);
        }
      }
    }
    if forall a, acc :: !Throws(w, a, acc) {
      forall f, s | Fits(f, s) ensures !CanRaise(w, f, s) {
        if schedule :| RaisedInside(RunFrom(w, f, s, schedule).outcome) {
          var a, acc := RaisingThrows(w, f, s, schedule);
        }
      }
    }
  }

  // ---------------------------------------------------------------- what rules it out

  /** No check of a parameter raises. */
  ghost predicate ChecksReturn(w: World)
  {
    forall p, v :: !w.check(p, v).Raises?
  }

  /** Every status that an app function returns, or has by default, is declared in its API. */
  ghost predicate DeclaresStatuses(w: World)
  {
    forall a: Action, device, args ::
      w.isFailure(a.app, a.name, StatusOf(w, a, w.runAction(a.app, a.name, device, args))).Some?
  }

  lemma CheckedDoNotRaise(w: World, a: Action, args: seq<Argument>, acc: Accumulator)
    requires ChecksReturn(w)
    ensures !CheckedArguments(w, a, args, acc).Raises?
  {
    var given := if args != [] then args else a.arguments;
    var dict := ApiDict(w.actionApi(a.app, a.name));
    CheckIsExact(w, w.actionApi(a.app, a.name), given, acc);
    hide ApiDict, CheckParameters, ChecksReturn;
    forall n | n in dict { FitDoesNotRaise(w, dict[n], given, acc); }
  }

  lemma FitDoesNotRaise(w: World, p: Param, args: seq<Argument>, acc: Accumulator)
    requires ChecksReturn(w)
    ensures !ParamFit(w, p, args, acc).Escapes?
  {
    hide GetValue;
  }

  /** If no check raises and every status is declared, no run of any workflow raises inside an action, and after any
      number of legs of an execution no action status is left executing. */
  lemma DeclaredIsSettled(w: World, f: Workflow, s: State, legs: seq<Leg>, r: Record)
    requires ChecksReturn(w) && DeclaresStatuses(w)
    requires Fits(f, s) && legs != [] && Settled(r.actions, s.execution)
    ensures !CanRaise(w, f, s)
    ensures Executing(Live(w, f, s, legs, r).record.actions) == {}
  {
    hide RunFrom, ExecuteWorkflow, Executing, Settled;
    NothingThrows(w);
    NoRunRaisesExactly(w);
    ExecutionsAreRecorded(w, f, s, legs, r);
    LastDoesNotRaise(w, f, s, legs, r);
  }

  lemma NothingThrows(w: World)
    requires ChecksReturn(w) && DeclaresStatuses(w)
    ensures forall a, acc :: !Throws(w, a, acc)
  {
    hide ResolveDevice, CheckedArguments, ChecksReturn;
    forall a, acc ensures !Throws(w, a, acc) {
      CheckedDoNotRaise(w, a, [], acc);
    }
  }

  lemma {:induction false} LastDoesNotRaise(w: World, f: Workflow, s: State, legs: seq<Leg>, r: Record)
    requires Fits(f, s) && legs != []
    requires forall g, t :: Fits(g, t) ==> !CanRaise(w, g, t)
    ensures !RaisedInside(Live(w, f, s, legs, r).last.outcome)
    decreases |legs|
  {
    hide RunFrom, ApplyAll;
    var run := ExecuteWorkflow(w, f, s, legs[0].schedule);
    assert !CanRaise(w, f, s);
    var r' := ApplyAll(r.(status := StatusPending), run.trace);
    if |legs| > 1 && (r'.status == StatusPaused || r'.status == StatusAwaitingData) && r'.saved.Some? {
      LastDoesNotRaise(w, f, ResumedState(f, r'.saved.value, legs[1].args, run.final.cells.acc, run.final.execution),
                       legs[1..], r');
    }
  }

  /** An action whose API declares no statuses at all is only ever finished by arguments that do not pass. */
  lemma UndeclaredNeverFinishes(w: World, a: Action, args: seq<Argument>, resume: bool, n: nat, acc: Accumulator)
    requires forall status :: w.isFailure(a.app, a.name, status).None?
    ensures Execute(w, a, args, resume, n, acc).Executed? <==>
              ResolveDevice(w, a, acc).Some? && (a.trigger.None? || resume)
                  && CheckedArguments(w, a, args, acc).Refuses?
  {
    hide ResolveDevice, CheckedArguments;
  }

  // ---------------------------------------------------------------- the status "trigger"

  /** The event of a result whose status is "trigger". */
  predicate TriggerResult(e: Event)
  {
    (e.ActionExecutionError? || e.ActionExecutionSuccess?) && e.status == TRIGGER
  }

  /** The result event of a trace that was abandoned is its last, and its result stays in the accumulator. */
  ghost predicate Abandons(r: Engine.Run)
  {
    && (forall k | 0 <= k < |r.trace| :: TriggerResult(r.trace[k]) <==> r.outcome.Abandoned? && k == |r.trace| - 1)
    && (r.outcome.Abandoned? ==>
          && r.trace != []
          && var last := r.trace[|r.trace|-1];
             && last.action == r.outcome.at
             && last.action in r.final.cells.acc && r.final.cells.acc[last.action] == last.result)
  }

  lemma ExecuteAbandons(w: World, a: Action, args: seq<Argument>, resume: bool, n: nat, acc: Accumulator)
    ensures var done := Execute(w, a, args, resume, n, acc);
            match done
            case Crashed => true
            case Awaiting(t) => forall e :: e in t ==> !TriggerResult(e)
            case Threw(t, _) => forall e :: e in t ==> !TriggerResult(e)
            case Executed(t, result, status) =>
              && |t| == 2 && !TriggerResult(t[0]) && (TriggerResult(t[1]) <==> status == TRIGGER)
              && (status == TRIGGER ==> t[1].action == a.id && t[1].result == result)
  {
    hide ResolveDevice, CheckedArguments;
  }

  lemma TurnAbandons(w: World, f: Workflow, s: State, a: Action, flags: Flags)
    requires Fits(f, s)
    ensures match TakeTurn(w, f, s, a, flags)
            case Ended(run) => Abandons(run)
            case Went(step) => forall e :: e in step.trace ==> !TriggerResult(e)
  {
    hide Execute, Choose, Outgoing;
    var done := Execute(w, a, s.args, s.resume, s.execution, s.cells.acc);
    ExecuteAbandons(w, a, s.args, s.resume, s.execution, s.cells.acc);
    if done.Executed? {
      ChoiceTrace(w, f, Outgoing(f, a.id, 0), done.status, a.id, Written(s, a, done.result));
      assert forall e :: e in Following(w, f, s, a, done).trace ==> !TriggerResult(e);
    }
  }

  /** A run returns without branches, shutdown or clearing exactly when an action's own status is "trigger": that
      result's event is the run's last, and no earlier event has such a status. */
  lemma {:induction false} AbandonedExactly(w: World, f: Workflow, s: State, schedule: seq<Flags>)
    requires Fits(f, s)
    ensures Abandons(RunFrom(w, f, s, schedule))
    decreases |schedule|
  {
    hide TakeTurn, Abandons;
    var action := NextAction(f, s);
    if action.None? || schedule == [] {
      NothingAbandoned(s);
    } else {
      TurnAbandons(w, f, s, action.value, schedule[0]);
      var turn := TakeTurn(w, f, s, action.value, schedule[0]);
      if turn.Went? {
        AbandonedExactly(w, f, turn.step.state, schedule[1..]);
        ThenAbandons(turn.step, RunFrom(w, f, turn.step.state, schedule[1..]));
      }
    }
  }

  lemma NothingAbandoned(s: State)
    ensures Abandons(Shutdown(s)) && Abandons(Run([], [], Running, s))
  {
  }

  lemma ThenAbandons(step: Advance, rest: Engine.Run)
    requires Abandons(rest) && forall e :: e in step.trace ==> !TriggerResult(e)
    ensures Abandons(Then(step, rest))
  {
    var r := Then(step, rest);
    forall k | 0 <= k < |r.trace|
      ensures TriggerResult(r.trace[k]) <==> r.outcome.Abandoned? && k == |r.trace| - 1
    {
      if k < |step.trace| {
        assert r.trace[k] in step.trace;
      } else {
        assert r.trace[k] == rest.trace[k - |step.trace|];
      }
    }
  }

  // ---------------------------------------------------------------- an input for each

  const WAIT := "wait_for_workflow_completion"

  const ID := Param("execution_id", None, true, Null)
  const TIMEOUT := Param("timeout", Some(Num(300.0)), false, Null)
  const REQUEST_TIMEOUT := Param("request_timeout", Some(Num(2.0)), false, Null)
  const BETWEEN := Param("wait_between_requests", Some(Num(0.1)), false, Null)

  const WAIT_API := [ID, TIMEOUT, REQUEST_TIMEOUT, BETWEEN]

  const DECLARED := {"Success", "TimedOut", "Unauthorized", "NotConnected", "UnknownResponse"}

  predicate Below(args: map<string, Value>, a: string, b: string)
  {
    a in args && b in args && args[a].Num? && args[b].Num? && args[a].n < args[b].n
  }

  /** The action of the shipped app that waits for a workflow: with a timeout too short it returns a status that its
      API does not declare, and may not. */
  function Wait(args: map<string, Value>): ActionResult
  {
    if Below(args, TIMEOUT.name, REQUEST_TIMEOUT.name) then
      ActionResult(Str("Function timeout must be greater than request timeout"), Some("InvalidInput"))
    else if Below(args, TIMEOUT.name, BETWEEN.name) then
      ActionResult(Str("Function timeout must be greater than wait between requests"), Some("InvalidInput"))
    else ActionResult(Null, None)
  }

  /** A world whose actions all have that API, with what they return and the statuses they declare given. */
  function Waiting(act: map<string, Value> -> ActionResult, declared: set<string>): World
  {
    var none := DataApi("", []);
    World((_, _) => WAIT_API, (_, _) => none, (_, _) => none, (_, v) => Accepts(v), (_, _, _, args) => act(args),
          (_, _, _) => None, (_, _, _) => None, (_, _) => "Success",
          (_, _, status) => if status in declared then Some(false) else None, Null, _ => None)
  }

  const WAITER := Action("a", "Walkoff", WAIT, None,
                         [Argument("execution_id", Str("e"), None, []), Argument("timeout", Num(1.0), None, [])], None)

  lemma WaitDict()
    ensures ApiDict(WAIT_API) == map[ID.name := ID, TIMEOUT.name := TIMEOUT, REQUEST_TIMEOUT.name := REQUEST_TIMEOUT,
                                     BETWEEN.name := BETWEEN]
  {
    assert [ID][..0] == [] && [ID, TIMEOUT][..1] == [ID] && [ID, TIMEOUT, REQUEST_TIMEOUT][..2] == [ID, TIMEOUT];
    assert WAIT_API[..3] == [ID, TIMEOUT, REQUEST_TIMEOUT];
    assert ApiDict([ID]) == map[ID.name := ID];
    assert ApiDict([ID, TIMEOUT]) == map[ID.name := ID, TIMEOUT.name := TIMEOUT];
  }

  lemma WaitFits(w: World, acc: Accumulator)
    requires forall p, v :: w.check(p, v) == Accepts(v)
    ensures var args := WAITER.arguments;
            && ParamFit(w, ID, args, acc) == Bound(Str("e")) && ParamFit(w, TIMEOUT, args, acc) == Bound(Num(1.0))
            && ParamFit(w, REQUEST_TIMEOUT, args, acc) == Bound(Num(2.0))
                && ParamFit(w, BETWEEN, args, acc) == Bound(Num(0.1))
  {
    var args := WAITER.arguments;
    assert args[1..] == [args[1]] && args[1..][1..] == [];
    assert FindArgument(args, "timeout") == FindArgument(args[1..], "timeout");
    assert FindArgument(args, "request_timeout") == FindArgument(args[1..], "request_timeout") == None;
    assert FindArgument(args, "wait_between_requests") == FindArgument(args[1..], "wait_between_requests") == None;
  }

  /** Executing the waiting action with a timeout of one second. */
  lemma WaitIsCalled(act: map<string, Value> -> ActionResult, declared: set<string>, n: nat, acc: Accumulator)
    returns (args: map<string, Value>)
    ensures Execute(Waiting(act, declared), WAITER, [], false, n, acc) ==
            Call(Waiting(act, declared), WAITER, None, Accepts(args), n)
    ensures Below(args, TIMEOUT.name, REQUEST_TIMEOUT.name)
  {
    var w := Waiting(act, declared);
    args := WaitIsAccepted(w, acc);
    assert w.actionApi(WAITER.app, WAITER.name) == WAIT_API;
    hide CheckParameters, Call, Waiting;
  }

  lemma WaitIsAccepted(w: World, acc: Accumulator) returns (args: map<string, Value>)
    requires forall p, v :: w.check(p, v) == Accepts(v)
    ensures CheckParameters(w, WAIT_API, WAITER.arguments, acc) == Accepts(args)
    ensures Below(args, TIMEOUT.name, REQUEST_TIMEOUT.name)
  {
    WaitFits(w, acc);
    WaitNames();
    WaitLookups();
    hide *;
    AllBound(w, WAIT_API, WAITER.arguments, acc);
    args := CheckParameters(w, WAIT_API, WAITER.arguments, acc).value;
    TimeoutIsBelow(args);
  }

  lemma TimeoutIsBelow(args: map<string, Value>)
    requires TIMEOUT.name in args && args[TIMEOUT.name] == Num(1.0)
    requires REQUEST_TIMEOUT.name in args && args[REQUEST_TIMEOUT.name] == Num(2.0)
    ensures Below(args, TIMEOUT.name, REQUEST_TIMEOUT.name)
  {
  }

  /** A check in which every parameter gets a value. */
  lemma AllBound(w: World, api: seq<Param>, args: seq<Argument>, acc: Accumulator)
    requires Names(args) <= ApiDict(api).Keys
    requires forall n :: n in ApiDict(api) ==> ParamFit(w, ApiDict(api)[n], args, acc).Bound?
    ensures CheckParameters(w, api, args, acc).Accepts?
    ensures var values := CheckParameters(w, api, args, acc).value;
            forall n :: n in ApiDict(api) ==> n in values && values[n] == ParamFit(w, ApiDict(api)[n], args, acc).value
  {
    hide ApiDict, ParamFit, Names;
    CheckAccepts(w, api, args, acc);
  }

  lemma WaitLookups()
    ensures var dict := ApiDict(WAIT_API);
            && dict.Keys == {ID.name, TIMEOUT.name, REQUEST_TIMEOUT.name, BETWEEN.name}
            && dict[ID.name] == ID && dict[TIMEOUT.name] == TIMEOUT
            && dict[REQUEST_TIMEOUT.name] == REQUEST_TIMEOUT && dict[BETWEEN.name] == BETWEEN
  {
    WaitDict();
    hide ApiDict;
  }

  lemma WaitNames()
    ensures Names(WAITER.arguments) == {ID.name, TIMEOUT.name}
  {
    assert WAITER.arguments[0].name in Names(WAITER.arguments) && WAITER.arguments[1].name in Names(WAITER.arguments);
  }


  /** The run of a workflow that is that action alone. */
  function RunAlone(w: World, a: Action, environment: map<Id, Value>): Engine.Run
  {
    var f := Alone(a, environment);
    ExecuteWorkflow(w, f, NewState(f, a.id, [], "", map[]), [QUIET])
  }

  lemma AloneTakesOneTurn(w: World, a: Action, environment: map<Id, Value>)
    ensures var f := Alone(a, environment);
            var s := NewState(f, a.id, [], "", map[]);
            && s == State(Some(a.id), Cells(environment, []), [], false, 0)
            && var turn := TakeTurn(w, f, s, a, QUIET);
               turn.Ended? ==>
                 RunAlone(w, a, environment) == turn.run.(trace := [WorkflowExecutionStart] + turn.run.trace)
  {
    hide TakeTurn;
    var f := Alone(a, environment);
    var s := NewState(f, a.id, [], "", map[]);
    assert ZeroedCounters(f) == map[];
    assert environment + map[] + map[] == environment;
    assert NextAction(f, s) == Some(a);
    assert [QUIET][0] == QUIET;
  }

  /** The undeclared status: nothing follows the start of the action, and its row stays executing. */
  lemma InvalidInputLeavesExecuting()
    ensures var run := RunAlone(Waiting(Wait, DECLARED), WAITER, map[]);
            && run.trace == [WorkflowExecutionStart, ActionStarted("a", 0)]
            && run.outcome == Failed("a", true)
            && ApplyAll(Record(StatusPending, [], None), run.trace) ==
               Record(StatusRunning, [ActionRow(0, "a", ActionExecuting)], None)
  {
    var args := WaitIsCalled(Wait, DECLARED, 0, map[]);
    WaitThrows(args);
    OpenRecord();
    hide *;
    ThrownAlone(Waiting(Wait, DECLARED), WAITER, map[]);
  }

  lemma WaitThrows(args: map<string, Value>)
    requires Below(args, TIMEOUT.name, REQUEST_TIMEOUT.name)
    ensures Call(Waiting(Wait, DECLARED), WAITER, None, Accepts(args), 0).Threw?
    ensures WAITER.id == "a"
  {
    assert Wait(args).status == Some("InvalidInput");
    assert Waiting(Wait, DECLARED).runAction(WAITER.app, WAITER.name, None, args) == Wait(args);
    hide Wait, Below;
    assert "InvalidInput" !in DECLARED;
  }

  lemma ThrownAlone(w: World, a: Action, environment: map<Id, Value>)
    requires Execute(w, a, [], false, 0, environment).Threw?
    ensures RunAlone(w, a, environment).trace == [WorkflowExecutionStart, ActionStarted(a.id, 0)]
    ensures RunAlone(w, a, environment).outcome == Failed(a.id, true)
  {
    hide ResolveDevice, CheckedArguments, ExecuteWorkflow;
    AloneTakesOneTurn(w, a, environment);
    assert Execute(w, a, [], false, 0, environment).trace == [ActionStarted(a.id, 0)];
    hide Execute;
  }

  lemma OpenRecord()
    ensures ApplyAll(Record(StatusPending, [], None), [WorkflowExecutionStart, ActionStarted("a", 0)]) ==
            Record(StatusRunning, [ActionRow(0, "a", ActionExecuting)], None)
  {
    assert [WorkflowExecutionStart, ActionStarted("a", 0)][1..] == [ActionStarted("a", 0)];
    assert [ActionStarted("a", 0)][1..] == [];
    assert ApplyAll(Record(StatusRunning, [], None), [ActionStarted("a", 0)]) ==
           Record(StatusRunning, [] + [ActionRow(0, "a", ActionExecuting)], None);
  }

  const SAYS_TRIGGER := ActionResult(Str("x"), Some(TRIGGER))

  /** The status "trigger": the result is announced and recorded, but no branch is examined, nothing closes the run
      and the accumulator is not cleared. */
  lemma TriggerStatusAbandons()
    ensures var run := RunAlone(Waiting(_ => SAYS_TRIGGER, {TRIGGER}), WAITER, map[]);
            && run.trace == [WorkflowExecutionStart, ActionStarted("a", 0),
                             ActionExecutionSuccess("a", 0, Str("x"), TRIGGER)]
            && run.outcome == Abandoned("a") && run.examined == []
            && run.final.cells.acc == map["a" := Str("x")]
  {
    var act: map<string, Value> -> ActionResult := _ => SAYS_TRIGGER;
    var w := Waiting(act, {TRIGGER});
    var args := WaitIsCalled(act, {TRIGGER}, 0, map[]);
    AloneTakesOneTurn(w, WAITER, map[]);
    assert Call(w, WAITER, None, Accepts(args), 0) ==
           Executed([ActionStarted("a", 0), ActionExecutionSuccess("a", 0, Str("x"), TRIGGER)], Str("x"), TRIGGER);
    hide Execute, ExecuteWorkflow;
  }

  /** The check of a parameter that is an array of strings, by the conversion of its value. */
  function ArrayCheck(v: Value): Checked<Value>
  {
    var lib := Library((_, x) => Converted(x), _ => None);
    match ConvertJson(lib, ArrayOf(Primitive("string")), v)
    case Converted(c) => Accepts(c)
    case Fails(InvalidArgument) => Refuses
    case Fails(_) => Raises
  }

  const ITEMS := Param("items", None, true, Null)

  function TakingArrays(): World
  {
    var none := DataApi("", []);
    World((_, _) => [ITEMS], (_, _) => none, (_, _) => none, (_, v) => ArrayCheck(v),
          (_, _, _, _) => ActionResult(Null, None),
          (_, _, _) => None, (_, _, _) => None, (_, _) => "Success", (_, _, _) => Some(false), Null, _ => None)
  }

  const TAKER := Action("a", "app", "act", None, [Argument("items", Null, Some("n"), [])], None)

  /** A reference that yields a number where an array is asked for: the conversion raises past the check. */
  lemma NumberForArrayLeavesExecuting()
    ensures var run := RunAlone(TakingArrays(), TAKER, map["n" := Num(3.0)]);
            run.trace == [WorkflowExecutionStart, ActionStarted("a", 0)] && run.outcome == Failed("a", true)
  {
    var w, acc: Accumulator := TakingArrays(), map["n" := Num(3.0)];
    assert [ITEMS][..0] == [];
    assert ApiDict([ITEMS]) == map["items" := ITEMS];
    assert "n" in acc;
    assert GetValue(w, TAKER.arguments[0], acc) == Some(Num(3.0));
    assert FindArgument(TAKER.arguments, "items") == Some(TAKER.arguments[0]);
    NumberIsNoArray();
    assert ParamFit(w, ITEMS, TAKER.arguments, acc).Escapes?;
    CheckIsExact(w, [ITEMS], TAKER.arguments, acc);
    var dict := ApiDict([ITEMS]);
    assert "items" in dict && dict["items"] == ITEMS && ParamFit(w, dict["items"], TAKER.arguments, acc).Escapes?;
    assert CheckParameters(w, [ITEMS], TAKER.arguments, acc).Raises?;
    assert w.actionApi(TAKER.app, TAKER.name) == [ITEMS];
    assert CheckedArguments(w, TAKER, [], acc).Raises?;
    hide CheckedArguments, RunAlone;
    ThrownAlone(w, TAKER, acc);
  }

  lemma NumberIsNoArray()
    ensures ArrayCheck(Num(3.0)) == Raises
  {
    assert Iterate(Num(3.0)) == None;
  }
}
