/** One run of a workflow: choosing branches, executing actions, and the serial execution strategy.

    The run is watched over a schedule: entry k holds the control flags that the communication thread has
    raised by the time of the run's k-th check. A run that is still going when the schedule ends is reported
    as Running, so every statement over all schedules is one over all finite prefixes of all runs. */
module Engine {
  import opened Json
  import opened Elements
  import opened Parameters
  import opened Conditions

  /** Events of a run. An action event carries the id of the action and of this execution of it, a branch event
      the position of the branch in the workflow, and a pause the executing action that is saved with it. */
  datatype Event =
    | WorkflowExecutionStart
    | WorkflowPaused(at: Id)
    | WorkflowAborted
    | WorkflowShutdown(data: Accumulator)
    | ActionStarted(action: Id, execution: nat)
    | TriggerActionAwaitingData(action: Id, execution: nat)
    | ActionArgumentsInvalid(action: Id, execution: nat)
    | ActionExecutionError(action: Id, execution: nat, result: Value, status: string)
    | ActionExecutionSuccess(action: Id, execution: nat, result: Value, status: string)
    | BranchTaken(branch: nat)
    | BranchNotTaken(branch: nat)

  const INVALID_ARGUMENTS := "InvalidArguments"

  /** A status with this name makes the strategy return. */
  const TRIGGER := "trigger"

  // ---------------------------------------------------------------- branches

  /** The accumulator together with the counters of the workflow's branches, by position. */
  datatype Cells = Cells(acc: Accumulator, counters: seq<nat>)

  function LeafOf(w: World, data: Value, acc: Accumulator): Condition -> Leaf
  {
    c => EvalCondition(w, c, data, acc)
  }

  /** Examining a branch raises its counter and records it, whether or not the branch is then taken. */
  function Count(f: Workflow, i: nat, cells: Cells): (r: Cells)
    requires i < |f.branches| == |cells.counters|
    ensures |r.counters| == |cells.counters|
  {
    var n := cells.counters[i] + 1;
    Cells(cells.acc[f.branches[i].id := Num(n as real)], cells.counters[i := n])
  }

  /** Whether a branch is taken, judged on an accumulator that already holds its own count. */
  predicate Takeable(w: World, b: Edge, status: string, current: Id, acc: Accumulator)
    requires current in acc
  {
    b.status == status && (b.condition.None? || Eval(b.condition.value, LeafOf(w, acc[current], acc)).holds)
  }

  /** Whether judging the branch raises an error that nothing catches. */
  predicate Breaks(w: World, b: Edge, status: string, current: Id, acc: Accumulator)
    requires current in acc
  {
    b.status == status && b.condition.Some? && Eval(b.condition.value, LeafOf(w, acc[current], acc)).raised
  }

  predicate Positions(f: Workflow, js: seq<nat>)
  {
    forall k | 0 <= k < |js| :: js[k] < |f.branches|
  }

  function StableInsert(f: Workflow, i: nat, sorted: seq<nat>): (r: seq<nat>)
    requires i < |f.branches| && Positions(f, sorted)
    ensures Positions(f, r)
  {
    if sorted == [] || f.branches[i].priority <= f.branches[sorted[0]].priority then [i] + sorted
    else [sorted[0]] + StableInsert(f, i, sorted[1..])
  }

  /** The positions, from n on, of the branches that leave an action, in (priority, position) order. */
  function Outgoing(f: Workflow, source: Id, n: nat): (r: seq<nat>)
    requires n <= |f.branches|
    ensures forall j :: j in r <==> n <= j < |f.branches| && f.branches[j].source == source
    ensures Positions(f, r)
    decreases |f.branches| - n
  {
    if n == |f.branches| then []
    else
      var rest := Outgoing(f, source, n + 1);
      if f.branches[n].source == source then
        StableInsertMembers(f, n, rest);
        StableInsert(f, n, rest)
      else rest
  }

  lemma {:induction false} StableInsertMembers(f: Workflow, i: nat, sorted: seq<nat>)
    requires i < |f.branches| && Positions(f, sorted)
    ensures forall j :: j in StableInsert(f, i, sorted) <==> j == i || j in sorted
  {
    if sorted != [] && f.branches[i].priority > f.branches[sorted[0]].priority {
      StableInsertMembers(f, i, sorted[1..]);
      assert sorted == [sorted[0]] + sorted[1..];
    }
  }

  datatype Choice = Choice(taken: Option<nat>, cells: Cells, trace: seq<Event>, examined: seq<nat>, raised: bool)

  /** Executes candidate branches in order until one is taken, or one raises. */
  function Choose(w: World, f: Workflow, candidates: seq<nat>, status: string, current: Id, cells: Cells): (r: Choice)
    requires Positions(f, candidates)
    requires |cells.counters| == |f.branches| && current in cells.acc
    ensures |r.cells.counters| == |f.branches| && cells.acc.Keys <= r.cells.acc.Keys
    ensures r.taken.Some? ==> r.taken.value in candidates && r.taken.value < |f.branches| && !r.raised
  {
    if candidates == [] then Choice(None, cells, [], [], false)
    else
      var i := candidates[0];
      var counted := Count(f, i, cells);
      if Takeable(w, f.branches[i], status, current, counted.acc) then
        Choice(Some(i), counted, [BranchTaken(i)], [i], false)
      else if Breaks(w, f.branches[i], status, current, counted.acc) then
        Choice(None, counted, [], [i], true)
      else
        var rest := Choose(w, f, candidates[1..], status, current, counted);
        var note := if f.branches[i].status == status then [BranchNotTaken(i)] else [];
        Choice(rest.taken, rest.cells, note + rest.trace, [i] + rest.examined, rest.raised)
  }

  // ---------------------------------------------------------------- actions

  /** What executing an action comes to. Threw is an error that nothing catches, raised after the action was
      announced: by the check of its arguments, or, with the result already written, by a status that its API does
      not declare. */
  datatype Done =
    | Crashed                                                    // the device reference does not resolve
    | Awaiting(trace: seq<Event>)
    | Threw(trace: seq<Event>, written: Option<Value>)
    | Executed(trace: seq<Event>, result: Value, status: string)

  /** The device of an action, if it has one; the outer None is the uncaught InvalidArgument. */
  function ResolveDevice(w: World, a: Action, acc: Accumulator): Option<Option<Value>>
  {
    match a.device
    case None => Some(None)
    case Some(d) => match GetValue(w, d, acc) case None => None case Some(v) => Some(Some(v))
  }

  /** The status of a result, the default one if it has none. */
  function StatusOf(w: World, a: Action, r: ActionResult): string
  {
    match r.status case None => w.defaultStatus(a.app, a.name) case Some(s) => s
  }

  /** Calls the app function, unless the arguments did not pass the check. */
  function Call(w: World, a: Action, device: Option<Value>, checked: Checked<map<string, Value>>, execution: nat): Done
  {
    var started := ActionStarted(a.id, execution);
    match checked
    case Raises => Threw([started], None)
    case Refuses => Executed([started, ActionArgumentsInvalid(a.id, execution)], w.invalidResult, INVALID_ARGUMENTS)
    case Accepts(args) =>
      var r := w.runAction(a.app, a.name, device, args);
      var status := StatusOf(w, a, r);
      match w.isFailure(a.app, a.name, status)
      case None => Threw([started], Some(r.result))
      case Some(true) => Executed([started, ActionExecutionError(a.id, execution, r.result, status)], r.result, status)
      case Some(false) => Executed([started, ActionExecutionSuccess(a.id, execution, r.result, status)], r.result,
                                   status)
  }

  function CheckedArguments(w: World, a: Action, args: seq<Argument>, acc: Accumulator): Checked<map<string, Value>>
  {
    CheckParameters(w, w.actionApi(a.app, a.name), if args != [] then args else a.arguments, acc)
  }

  /** What executing an action comes to; its result is what goes into the accumulator under its id. */
  function Execute(w: World, a: Action, args: seq<Argument>, resume: bool, execution: nat, acc: Accumulator): Done
  {
    match ResolveDevice(w, a, acc)
    case None => Crashed
    case Some(device) =>
      if a.trigger.Some? && !resume then
        Awaiting([ActionStarted(a.id, execution), TriggerActionAwaitingData(a.id, execution)])
      else Call(w, a, device, CheckedArguments(w, a, args, acc), execution)
  }

  // ---------------------------------------------------------------- runs

  function FindAction(actions: seq<Action>, id: Id): (r: Option<Action>)
    ensures r.Some? <==> exists a :: a in actions && a.id == id
    ensures r.Some? ==> r.value in actions && r.value.id == id
  {
    if actions == [] then None
    else if actions[0].id == id then Some(actions[0])
    else FindAction(actions[1..], id)
  }

  datatype Flags = Flags(pause: bool, abort: bool)

  const QUIET := Flags(false, false)

  /** A run about to look up its next action. `execution` numbers the action executions drawn so far. */
  datatype State = State(next: Option<Id>, cells: Cells, args: seq<Argument>, resume: bool, execution: nat)

  datatype Outcome =
    | Completed
    | Paused(at: Id)
    | Aborted(at: Id)
    | AwaitingData(at: Id)
    | Abandoned(at: Id)                  // the action's own status was "trigger": the strategy returns
    | Failed(at: Id, inside: bool)       // an error went uncaught, inside the action or outside of it
    | Running

  datatype Run = Run(trace: seq<Event>, examined: seq<nat>, outcome: Outcome, final: State)

  ghost predicate Fits(f: Workflow, s: State)
  {
    |s.cells.counters| == |f.branches|
  }

  function NextAction(f: Workflow, s: State): Option<Action>
  {
    if s.next.None? then None else FindAction(f.actions, s.next.value)
  }

  /** The state after an action was executed and its branches were examined. */
  datatype Advance = Advance(trace: seq<Event>, examined: seq<nat>, state: State)

  function Written(s: State, a: Action, result: Value): Cells
  {
    s.cells.(acc := s.cells.acc[a.id := result])
  }

  /** Examining the branches that leave an action after its result was written. */
  function Following(w: World, f: Workflow, s: State, a: Action, done: Done): (c: Choice)
    requires Fits(f, s) && done.Executed?
    ensures |c.cells.counters| == |f.branches| && a.id in c.cells.acc
    ensures c.taken.Some? ==> c.taken.value < |f.branches| && !c.raised
  {
    Choose(w, f, Outgoing(f, a.id, 0), done.status, a.id, Written(s, a, done.result))
  }

  function After(w: World, f: Workflow, s: State, a: Action, done: Done): (r: Advance)
    requires Fits(f, s) && done.Executed?
    ensures Fits(f, r.state) && r.state.cells.acc != map[]
  {
    var choice := Following(w, f, s, a, done);
    assert a.id in choice.cells.acc;
    var next := if choice.taken.None? then None else Some(f.branches[choice.taken.value].destination);
    Advance(done.trace + choice.trace, choice.examined,
            State(next, choice.cells, [], s.resume, s.execution + 1))
  }

  datatype Turn = Ended(run: Run) | Went(step: Advance)

  /** The turn after an action was executed: the strategy returns on the status "trigger", otherwise the branches
      are examined, which may raise. */
  function TurnAfter(w: World, f: Workflow, s: State, a: Action, done: Done): (t: Turn)
    requires Fits(f, s) && done.Executed?
    ensures match t case Ended(run) => Fits(f, run.final) case Went(step) => Fits(f, step.state)
  {
    if done.status == TRIGGER then
      Ended(Run(done.trace, [], Abandoned(a.id),
                State(s.next, Written(s, a, done.result), [], s.resume, s.execution + 1)))
    else
      var step := After(w, f, s, a, done);
      if Following(w, f, s, a, done).raised then Ended(Run(step.trace, step.examined, Failed(a.id, false), step.state))
      else Went(step)
  }

  /** The turn that follows from what executing its action came to. */
  function Did(w: World, f: Workflow, s: State, a: Action, done: Done): (t: Turn)
    requires Fits(f, s)
    ensures match t case Ended(run) => Fits(f, run.final) case Went(step) => Fits(f, step.state)
  {
    match done
    case Crashed => Ended(Run([], [], Failed(a.id, false), s))
    case Awaiting(trace) => Ended(Run(trace, [], AwaitingData(a.id), s.(execution := s.execution + 1)))
    case Threw(trace, written) =>
      var cells := if written.Some? then Written(s, a, written.value) else s.cells;
      Ended(Run(trace, [], Failed(a.id, true), s.(cells := cells, execution := s.execution + 1)))
    case Executed(_, _, _) => TurnAfter(w, f, s, a, done)
  }

  /** One turn of the strategy's loop, with its next action already found. */
  function TakeTurn(w: World, f: Workflow, s: State, a: Action, flags: Flags): (t: Turn)
    requires Fits(f, s)
    ensures match t case Ended(run) => Fits(f, run.final) case Went(step) => Fits(f, step.state)
  {
    if flags.pause then Ended(Run([WorkflowPaused(a.id)], [], Paused(a.id), s))
    else if flags.abort then Ended(Run([WorkflowAborted], [], Aborted(a.id), s))
    else Did(w, f, s, a, Execute(w, a, s.args, s.resume, s.execution, s.cells.acc))
  }

  function Then(step: Advance, rest: Run): Run
  {
    Run(step.trace + rest.trace, step.examined + rest.examined, rest.outcome, rest.final)
  }

  /** The run that ends because no action is next. */
  function Shutdown(s: State): Run
  {
    Run([WorkflowShutdown(s.cells.acc)], [], Completed, s.(next := None, cells := s.cells.(acc := map[])))
  }

  /** The serial execution strategy from an action boundary on. */
  function RunFrom(w: World, f: Workflow, s: State, schedule: seq<Flags>): (r: Run)
    requires Fits(f, s)
    ensures Fits(f, r.final)
    decreases |schedule|
  {
    match NextAction(f, s)
    case None => Shutdown(s)
    case Some(a) =>
      if schedule == [] then Run([], [], Running, s)
      else
        match TakeTurn(w, f, s, a, schedule[0])
        case Ended(run) => run
        case Went(step) => Then(step, RunFrom(w, f, step.state, schedule[1..]))
  }

  /** Branch counters as entered in the accumulator of a new run. */
  function ZeroedCounters(f: Workflow): Accumulator
  {
    map b | b in f.branches :: b.id := Num(0.0)
  }

  /** The context of a new run. The requesting user lands in the position of the `resumed` flag, so the
      counters are entered as zero only when there is no user. */
  function NewState(f: Workflow, start: Id, args: seq<Argument>, user: string, overrides: map<Id, Value>): State
  {
    var acc := f.environment + (if user == "" then ZeroedCounters(f) else map[]);
    State(Some(start), Cells(acc + overrides, seq(|f.branches|, _ => 0)), args, false, 0)
  }

  /** The context a worker makes from saved state: the accumulator persists, the workflow's environment is
      applied again, and the branch counters restart. */
  function ResumedState(f: Workflow, at: Id, args: seq<Argument>, acc: Accumulator, execution: nat): State
  {
    State(Some(at), Cells(acc + f.environment, seq(|f.branches|, _ => 0)), args, true, execution)
  }

  function ExecuteWorkflow(w: World, f: Workflow, s: State, schedule: seq<Flags>): Run
    requires Fits(f, s)
  {
    var run := RunFrom(w, f, s, schedule);
    run.(trace := [WorkflowExecutionStart] + run.trace)
  }
}
