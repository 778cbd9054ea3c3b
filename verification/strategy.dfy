/** The serial execution strategy over the objects it updates: branches with their counters, the accumulator,
    and the execution context. */
module Strategy {
  import opened Json
  import opened Elements
  import opened Parameters
  import opened Conditions
  import opened Engine
  import opened Pausing

  /** The accumulator of an execution. */
  class Results {
    var entries: Accumulator

    constructor (entries: Accumulator)
      ensures this.entries == entries
    {
      this.entries := entries;
    }
  }

  class Branch {
    const edge: Edge
    var counter: nat

    constructor (edge: Edge)
      ensures this.edge == edge && counter == 0
    {
      this.edge := edge;
      counter := 0;
    }

    /** Counts the examination, then judges the branch on what is now in the accumulator; the condition may raise.
        `position` names the branch in its events. */
    method Execute(w: World, position: nat, status: string, current: Id, accumulator: Results)
      returns (destination: Option<Id>, events: seq<Event>, raised: bool)
      requires current in accumulator.entries
      modifies this, accumulator
      ensures counter == old(counter) + 1
      ensures accumulator.entries == old(accumulator.entries)[edge.id := Num(counter as real)]
      ensures destination == if Takeable(w, edge, status, current, accumulator.entries) then Some(edge.destination)
              else None
      ensures raised == Breaks(w, edge, status, current, accumulator.entries)
      ensures var acc := accumulator.entries;
              var result := acc[current];
              var judge := (c: Condition) => EvalCondition(w, c, result, acc);
              && (destination.Some? <==>
                    edge.status == status && (edge.condition.None? || Eval(edge.condition.value, judge).holds))
              && (raised <==> edge.status == status && edge.condition.Some? && Eval(edge.condition.value, judge).raised)
      ensures events == if destination.Some? then [BranchTaken(position)]
                        else if edge.status == status && !raised then [BranchNotTaken(position)] else []
    {
      counter := counter + 1;
      accumulator.entries := accumulator.entries[edge.id := Num(counter as real)];
      if status == edge.status {
        var data := accumulator.entries[current];
        if edge.condition.None? {
          return Some(edge.destination), [BranchTaken(position)], false;
        }
        var verdict := Eval(edge.condition.value, LeafOf(w, data, accumulator.entries));
        ghost var acc := accumulator.entries;
        VisitsDecide(edge.condition.value, LeafOf(w, data, acc), (c: Condition) => EvalCondition(w, c, data, acc));
        if verdict.raised {
          return None, [], true;
        }
        if verdict.holds {
          return Some(edge.destination), [BranchTaken(position)], false;
        }
        return None, [BranchNotTaken(position)], false;
      }
      return None, [], false;
    }
  }

  class WorkflowExecutionContext {
    const workflow: Workflow
    const accumulator: Results
    const branches: seq<Branch>
    var executingAction: Option<Action>
    var isPaused: bool
    var isAborted: bool
    var lastStatus: string
    var executions: nat              // action execution ids drawn
    var sent: seq<Event>

    ghost predicate Valid()
      reads this
    {
      && |branches| == |workflow.branches|
      && (forall i | 0 <= i < |branches| :: branches[i].edge == workflow.branches[i])
      && (forall i, j | 0 <= i < j < |branches| :: branches[i] != branches[j])
    }

    ghost function Counters(): (r: seq<nat>)
      reads branches
      ensures |r| == |branches| && forall i | 0 <= i < |r| :: r[i] == branches[i].counter
    {
      seq(|branches|, i requires 0 <= i < |branches| reads branches => branches[i].counter)
    }

    ghost function CellsNow(): Cells
      reads this, accumulator, branches
    {
      Cells(accumulator.entries, Counters())
    }

    /** A context as a worker makes it: the branches are loaded afresh, and the accumulator is what the store
        holds for the execution, the workflow's variables, and zeroes for the branches unless resumed. */
    constructor (workflow: Workflow, stored: Accumulator, resumed: bool, executions: nat)
      ensures Valid() && this.workflow == workflow && this.executions == executions && sent == []
      ensures CellsNow() == Cells(stored + workflow.environment + (if resumed then map[] else ZeroedCounters(workflow)),
                                  seq(|workflow.branches|, _ => 0))
      ensures fresh(accumulator) && forall i | 0 <= i < |branches| :: fresh(branches[i])
    {
      var loaded: seq<Branch> := [];
      for i := 0 to |workflow.branches|
        invariant |loaded| == i
        invariant forall k | 0 <= k < i :: loaded[k].edge == workflow.branches[k] && loaded[k].counter == 0
        invariant forall k | 0 <= k < i :: fresh(loaded[k])
        invariant forall j, k | 0 <= j < k < i :: loaded[j] != loaded[k]
      {
        var b := new Branch(workflow.branches[i]);
        loaded := loaded + [b];
      }
      var results := new Results(stored);
      results.entries := results.entries + workflow.environment;
      if !resumed {
        results.entries := results.entries + ZeroedCounters(workflow);
      }
      this.workflow := workflow;
      accumulator := results;
      branches := loaded;
      executingAction, isPaused, isAborted, lastStatus, sent := None, false, false, "", [];
      this.executions := executions;
      new;
      assert Counters() == seq(|workflow.branches|, _ => 0);
    }

    function CellsOf(): (c: Cells)
      reads this, accumulator, branches
      ensures c == CellsNow()
    {
      Cells(accumulator.entries, seq(|branches|, i requires 0 <= i < |branches| reads branches => branches[i].counter))
    }

    method Examine(w: World, i: nat, current: Id) returns (taken: bool, events: seq<Event>, raised: bool)
      requires Valid() && current in accumulator.entries && i < |branches|
      modifies branches, accumulator, this`sent
      ensures Valid() && CellsNow() == Count(workflow, i, old(CellsNow())) && sent == old(sent) + events
      ensures current in accumulator.entries
      ensures taken == Takeable(w, workflow.branches[i], lastStatus, current, accumulator.entries)
      ensures raised == Breaks(w, workflow.branches[i], lastStatus, current, accumulator.entries)
      ensures events == if taken then [BranchTaken(i)]
                        else if workflow.branches[i].status == lastStatus && !raised then [BranchNotTaken(i)] else []
    {
      hide Takeable, Breaks;
      var destination, notes, thrown := branches[i].Execute(w, i, lastStatus, current, accumulator);
      assert Counters() == old(Counters())[i := old(Counters())[i] + 1];
      sent := sent + notes;
      taken, events, raised := destination.Some?, notes, thrown;
    }

    /** The first branch, in order, that is taken, unless one raises before. */
    method GetBranch(w: World, a: Action) returns (choice: Choice)
      requires Valid() && a.id in accumulator.entries
      modifies branches, accumulator, this`sent
      ensures Valid()
      ensures choice == Choose(w, workflow, Outgoing(workflow, a.id, 0), lastStatus, a.id, old(CellsNow()))
      ensures CellsNow() == choice.cells && sent == old(sent) + choice.trace
    {
      hide Takeable, Breaks, Outgoing, Choose, Count, Continue;
      var js := Outgoing(workflow, a.id, 0);
      var trace: seq<Event> := [];
      ghost var start := CellsNow();
      var k := 0;
      assert js[0..] == js && js[..0] == [];
      NoMore(w, workflow, [], lastStatus, a.id, start);
      while k < |js|
        invariant Valid() && a.id in accumulator.entries && sent == old(sent) + trace && k <= |js|
        invariant Choose(w, workflow, js, lastStatus, a.id, start) ==
                  Continue(trace, js[..k], Choose(w, workflow, js[k..], lastStatus, a.id, CellsNow()))
      {
        ChooseUnfolds(w, workflow, js, k, trace, lastStatus, a.id, CellsNow());
        var taken, events, raised := Examine(w, js[k], a.id);
        trace := trace + events;
        k := k + 1;
        if taken {
          return Choice(Some(js[k-1]), CellsOf(), trace, js[..k], false);
        }
        if raised {
          return Choice(None, CellsOf(), trace, js[..k], true);
        }
      }
      assert js[|js|..] == [] && js[..|js|] == js;
      NoMore(w, workflow, js, lastStatus, a.id, CellsNow());
      choice := Choice(None, CellsOf(), trace, js, false);
    }

    /** Executes one action: its events are sent as they come up, its result is written to the accumulator. An error
        may go uncaught: before the start is announced, in the check of the arguments, or once the result is written
        and its status turns out not to be declared. */
    method ExecuteAction(w: World, a: Action, args: seq<Argument>, resume: bool) returns (done: Done)
      modifies accumulator, this`executions, this`sent
      ensures done == Engine.Execute(w, a, args, resume, old(executions), old(accumulator.entries))
      ensures accumulator.entries == match done
                case Executed(_, result, _) => old(accumulator.entries)[a.id := result]
                case Threw(_, Some(result)) => old(accumulator.entries)[a.id := result]
                case _ => old(accumulator.entries)
      ensures sent == if done.Crashed? then old(sent) else old(sent) + done.trace
      ensures done.Executed? ==>
                forall e :: e in done.trace ==>
                  && (e.ActionExecutionError? ==> w.isFailure(a.app, a.name, e.status) == Some(true))
                  && (e.ActionExecutionSuccess? ==> w.isFailure(a.app, a.name, e.status) == Some(false))
      ensures executions == if done.Crashed? then old(executions) else old(executions) + 1
    {
      var device: Option<Value> := None;
      if a.device.Some? {
        var resolved := GetValue(w, a.device.value, accumulator.entries);
        if resolved.None? {
          return Crashed;
        }
        device := Some(resolved.value);
      }
      var execution := executions;
      executions := executions + 1;
      var started := ActionStarted(a.id, execution);
      sent := sent + [started];
      if a.trigger.Some? && !resume {
        var awaiting := TriggerActionAwaitingData(a.id, execution);
        sent := sent + [awaiting];
        return Awaiting([started, awaiting]);
      }
      var checked := ValidateParameters(w, w.actionApi(a.app, a.name), if args != [] then args else a.arguments,
                                        accumulator.entries);
      if checked.Raises? {
        return Threw([started], None);
      }
      if checked.Refuses? {
        accumulator.entries := accumulator.entries[a.id := w.invalidResult];
        var invalid := ActionArgumentsInvalid(a.id, execution);
        sent := sent + [invalid];
        return Executed([started, invalid], w.invalidResult, INVALID_ARGUMENTS);
      }
      var r := w.runAction(a.app, a.name, device, checked.value);
      accumulator.entries := accumulator.entries[a.id := r.result];
      var status := if r.status.None? then w.defaultStatus(a.app, a.name) else r.status.value;
      var failed := w.isFailure(a.app, a.name, status);
      if failed.None? {
        return Threw([started], Some(r.result));
      }
      var finished :=
        if failed.value then ActionExecutionError(a.id, execution, r.result, status)
        else ActionExecutionSuccess(a.id, execution, r.result, status);
      sent := sent + [finished];
      done := Executed([started, finished], r.result, status);
    }

    /** One turn of the loop past the check: the action is executed, and unless its status is "trigger" the next one
        is chosen. */
    method Proceed(w: World, s: State, a: Action) returns (turn: Turn)
      requires Valid() && Fits(workflow, s) && CellsNow() == s.cells && executions == s.execution
      modifies branches, accumulator, this`executions, this`sent, this`lastStatus
      ensures Valid()
      ensures turn == TakeTurn(w, workflow, s, a, QUIET)
      ensures match turn
              case Ended(run) => sent == old(sent) + run.trace && CellsNow() == run.final.cells
                  && executions == run.final.execution
              case Went(step) =>
                sent == old(sent) + step.trace && CellsNow() == step.state.cells && executions == step.state.execution
    {
      hide Engine.Execute, Choose, Outgoing;
      var done := ExecuteAction(w, a, s.args, s.resume);
      match done {
        case Crashed =>
          turn := Ended(Run([], [], Failed(a.id, false), s));
        case Awaiting(trace) =>
          turn := Ended(Run(trace, [], AwaitingData(a.id), s.(execution := s.execution + 1)));
        case Threw(trace, written) =>
          var cells := if written.Some? then Written(s, a, written.value) else s.cells;
          turn := Ended(Run(trace, [], Failed(a.id, true), s.(cells := cells, execution := s.execution + 1)));
        case Executed(trace, result, status) =>
          lastStatus := status;
          assert CellsNow() == Written(s, a, result);
          if status == TRIGGER {
            return Ended(Run(trace, [], Abandoned(a.id), State(s.next, CellsOf(), [], s.resume, s.execution + 1)));
          }
          var choice := GetBranch(w, a);
          var next := if choice.taken.None? then None else Some(workflow.branches[choice.taken.value].destination);
          assert sent == old(sent) + (trace + choice.trace);
          var after := State(next, choice.cells, [], s.resume, s.execution + 1);
          if choice.raised {
            return Ended(Run(trace + choice.trace, choice.examined, Failed(a.id, false), after));
          }
          turn := Went(Advance(trace + choice.trace, choice.examined, after));
      }
    }

    /** One turn of the loop: the flags are checked, pause first, and reset by the one that stops the run. */
    method Turn(w: World, s: State, a: Action, flags: Flags) returns (turn: Engine.Turn)
      requires Valid() && Fits(workflow, s) && CellsNow() == s.cells && executions == s.execution
      modifies branches, accumulator, this
      ensures Valid()
      ensures turn == TakeTurn(w, workflow, s, a, flags)
      ensures match turn
              case Ended(run) => sent == old(sent) + run.trace && CellsNow() == run.final.cells
              case Went(step) =>
                sent == old(sent) + step.trace && CellsNow() == step.state.cells && executions == step.state.execution
    {
      hide TakeTurn;
      StoppedTurn(w, workflow, s, a, flags);
      executingAction := Some(a);
      isPaused, isAborted := flags.pause, flags.abort;
      if isPaused {
        isPaused := false;
        sent := sent + [WorkflowPaused(a.id)];
        return Ended(Run([WorkflowPaused(a.id)], [], Paused(a.id), s));
      }
      if isAborted {
        isAborted := false;
        sent := sent + [WorkflowAborted];
        return Ended(Run([WorkflowAborted], [], Aborted(a.id), s));
      }
      turn := Proceed(w, s, a);
    }

    method Close(s: State) returns (run: Run)
      requires Valid() && Fits(workflow, s) && CellsNow() == s.cells
      modifies accumulator, this`sent
      ensures Valid() && run == Shutdown(s) && sent == old(sent) + run.trace && CellsNow() == run.final.cells
    {
      var ended := WorkflowShutdown(accumulator.entries);
      sent := sent + [ended];
      accumulator.entries := map[];
      run := Run([ended], [], Completed, s.(next := None, cells := s.cells.(acc := map[])));
    }

    /** The loop over actions, each turn given the flags raised by the time it is reached. */
    method DoExecute(w: World, start: State, schedule: seq<Flags>) returns (run: Run)
      requires Valid() && Fits(workflow, start) && CellsNow() == start.cells && executions == start.execution
      modifies branches, accumulator, this
      ensures Valid() && run == RunFrom(w, workflow, start, schedule)
      ensures sent == old(sent) + run.trace && CellsNow() == run.final.cells
    {
      hide TakeTurn, RunFrom, NextAction, Valid, CellsNow, Shutdown;
      var s := start;
      var trace: seq<Event> := [];
      var examined: seq<nat> := [];
      var k := 0;
      var action := NextAction(workflow, s);
      assert schedule[0..] == schedule;
      PrependNothing(s, RunFrom(w, workflow, s, schedule));
      while action.Some? && k < |schedule|
        invariant Valid() && Fits(workflow, s) && CellsNow() == s.cells && executions == s.execution && k <= |schedule|
        invariant action == NextAction(workflow, s) && sent == old(sent) + trace
        invariant RunFrom(w, workflow, start, schedule) ==
                  Prepend(Run(trace, examined, Running, s), RunFrom(w, workflow, s, schedule[k..]))
      {
        RunUnfolds(w, workflow, s, trace, examined, schedule, k);
        var turn := Turn(w, s, action.value, schedule[k]);
        match turn {
          case Ended(last) =>
            Reassociate(old(sent), trace, last.trace);
            return Run(trace + last.trace, examined + last.examined, last.outcome, last.final);
          case Went(step) =>
            Reassociate(old(sent), trace, step.trace);
            trace, examined, s := trace + step.trace, examined + step.examined, step.state;
            k := k + 1;
            action := NextAction(workflow, s);
        }
      }
      RunStops(w, workflow, s, schedule[k..]);
      if action.Some? {
        assert trace + [] == trace && examined + [] == examined && schedule[k..] == [];
        run := Run(trace, examined, Running, s);
      } else {
        var last := Close(s);
        Reassociate(old(sent), trace, last.trace);
        run := Run(trace + last.trace, examined + last.examined, last.outcome, last.final);
      }
    }

    /** The strategy's entry point: the run's own variables override what is there, and the start is announced. */
    method ExecuteStrategy(w: World, start: Id, args: seq<Argument>, resume: bool, overrides: map<Id, Value>,
                           schedule: seq<Flags>)
      returns (run: Run)
      requires Valid()
      modifies branches, accumulator, this
      ensures Valid()
      ensures run == ExecuteWorkflow(w, workflow,
                State(Some(start), Cells(old(accumulator.entries) + overrides, old(Counters())), args, resume,
                      old(executions)), schedule)
      ensures sent == old(sent) + run.trace && CellsNow() == run.final.cells
    {
      hide RunFrom;
      ghost var counters := Counters();
      accumulator.entries := accumulator.entries + overrides;
      assert Counters() == counters;
      sent := sent + [WorkflowExecutionStart];
      var begun := DoExecute(w, State(Some(start), CellsOf(), args, resume, executions), schedule);
      run := begun.(trace := [WorkflowExecutionStart] + begun.trace);
      Reassociate(old(sent), [WorkflowExecutionStart], begun.trace);
    }
  }

  /** A new execution: nothing is stored yet, and the user stands where the resumed flag is expected. */
  method RunNew(w: World, f: Workflow, start: Id, args: seq<Argument>, user: string, overrides: map<Id, Value>,
                schedule: seq<Flags>)
    returns (run: Run)
    ensures run == ExecuteWorkflow(w, f, NewState(f, start, args, user, overrides), schedule)
  {
    hide ExecuteWorkflow;
    var context := new WorkflowExecutionContext(f, map[], user != "", 0);
    NothingStored(f, user);
    run := context.ExecuteStrategy(w, start, args, false, overrides, schedule);
  }

  /** An execution taken up again: the accumulator is what the last run left in the store, and no variables are
      passed with the request. */
  method RunResumed(w: World, f: Workflow, at: Id, args: seq<Argument>, stored: Accumulator, executions: nat,
                    schedule: seq<Flags>)
    returns (run: Run)
    ensures run == ExecuteWorkflow(w, f, ResumedState(f, at, args, stored, executions), schedule)
  {
    hide ExecuteWorkflow;
    var context := new WorkflowExecutionContext(f, stored, true, executions);
    assert stored + f.environment + map[] + map[] == stored + f.environment;
    run := context.ExecuteStrategy(w, at, args, true, map[], schedule);
  }

  lemma NothingStored(f: Workflow, user: string)
    ensures map[] + f.environment + (if user != "" then map[] else ZeroedCounters(f)) ==
            f.environment + (if user == "" then ZeroedCounters(f) else map[])
  {
  }

  // ---------------------------------------------------------------- the loops unfolded

  function Continue(trace: seq<Event>, examined: seq<nat>, rest: Choice): Choice
  {
    Choice(rest.taken, rest.cells, trace + rest.trace, examined + rest.examined, rest.raised)
  }

  lemma NoMore(w: World, f: Workflow, js: seq<nat>, status: string, current: Id, cells: Cells)
    requires |cells.counters| == |f.branches| && current in cells.acc
    ensures Choose(w, f, [], status, current, cells) == Choice(None, cells, [], [], false)
    ensures forall c: Choice :: Continue([], [], c) == c
    ensures forall trace ::
              Continue(trace, js, Choice(None, cells, [], [], false)) == Choice(None, cells, trace, js, false)
  {
  }

  lemma ChooseUnfolds(w: World, f: Workflow, js: seq<nat>, k: nat, trace: seq<Event>, status: string, current: Id,
                      cells: Cells)
    requires Positions(f, js) && k < |js| && |cells.counters| == |f.branches| && current in cells.acc
    ensures js[k] < |f.branches|
    ensures var i := js[k];
            var counted := Count(f, i, cells);
            Continue(trace, js[..k], Choose(w, f, js[k..], status, current, cells)) ==
            if Takeable(w, f.branches[i], status, current, counted.acc)
            then Choice(Some(i), counted, trace + [BranchTaken(i)], js[..k+1], false)
            else if Breaks(w, f.branches[i], status, current, counted.acc)
            then Choice(None, counted, trace, js[..k+1], true)
            else Continue(trace + (if f.branches[i].status == status then [BranchNotTaken(i)] else []), js[..k+1],
                       Choose(w, f, js[k+1..], status, current, counted))
  {
    hide Takeable, Breaks;
    var i := js[k];
    var counted := Count(f, i, cells);
    assert js[k..][1..] == js[k+1..] && js[..k+1] == js[..k] + [i];
    assert trace + [] == trace;
    if !Takeable(w, f.branches[i], status, current, counted.acc)
        && !Breaks(w, f.branches[i], status, current, counted.acc) {
      var rest := Choose(w, f, js[k+1..], status, current, counted);
      var note := if f.branches[i].status == status then [BranchNotTaken(i)] else [];
      assert trace + (note + rest.trace) == (trace + note) + rest.trace;
      assert js[..k] + ([i] + rest.examined) == js[..k+1] + rest.examined;
    }
  }

  lemma StoppedTurn(w: World, f: Workflow, s: State, a: Action, flags: Flags)
    requires Fits(f, s)
    ensures flags.pause ==> TakeTurn(w, f, s, a, flags) == Ended(Run([WorkflowPaused(a.id)], [], Paused(a.id), s))
    ensures !flags.pause && flags.abort ==>
            TakeTurn(w, f, s, a, flags) == Ended(Run([WorkflowAborted], [], Aborted(a.id), s))
    ensures !flags.pause && !flags.abort ==> flags == QUIET
  {
    hide Engine.Execute, After;
  }

  lemma Reassociate(a: seq<Event>, b: seq<Event>, c: seq<Event>)
    ensures (a + b) + c == a + (b + c)
  {
  }

  lemma PrependNothing(s: State, r: Run)
    ensures Prepend(Run([], [], Running, s), r) == r
  {
  }

  lemma RunUnfolds(w: World, f: Workflow, s: State, trace: seq<Event>, examined: seq<nat>, schedule: seq<Flags>, k: nat)
    requires Fits(f, s) && NextAction(f, s).Some? && k < |schedule|
    ensures Prepend(Run(trace, examined, Running, s), RunFrom(w, f, s, schedule[k..])) ==
            match TakeTurn(w, f, s, NextAction(f, s).value, schedule[k])
            case Ended(last) => Run(trace + last.trace, examined + last.examined, last.outcome, last.final)
            case Went(step) => Prepend(Run(trace + step.trace, examined + step.examined, Running, step.state),
                                       RunFrom(w, f, step.state, schedule[k+1..]))
  {
    hide TakeTurn;
    assert schedule[k..][0] == schedule[k] && schedule[k..][1..] == schedule[k+1..];
    var turn := TakeTurn(w, f, s, NextAction(f, s).value, schedule[k]);
    if turn.Went? {
      var rest := RunFrom(w, f, turn.step.state, schedule[k+1..]);
      assert trace + (turn.step.trace + rest.trace) == (trace + turn.step.trace) + rest.trace;
      assert examined + (turn.step.examined + rest.examined) == (examined + turn.step.examined) + rest.examined;
    }
  }

  lemma RunStops(w: World, f: Workflow, s: State, schedule: seq<Flags>)
    requires Fits(f, s) && (NextAction(f, s).None? || schedule == [])
    ensures RunFrom(w, f, s, schedule) == if NextAction(f, s).None? then Shutdown(s) else Run([], [], Running, s)
  {
    hide TakeTurn;
  }
}
