/** The language of event traces, and what folding traces through the server's callbacks leaves behind. */
module Traces {
  import opened Json
  import opened Branches
  import opened Elements
  import opened Engine
  import opened Statuses

  /** The states of the automaton that accepts traces. `n` is the number of the next action execution. */
  datatype Phase =
    | Unstarted(n: nat)
    | Between(n: nat)
    | Busy(action: Id, n: nat)
    | Over(last: Event, n: nat)

  /** One start event; then actions, each started and finished before the next, with branch events only
      between them; then one closing event. */
  function Accept(p: Phase, e: Event): Option<Phase>
  {
    match p
    case Unstarted(n) => if e.WorkflowExecutionStart? then Some(Between(n)) else None
    case Between(n) =>
      (match e
       case ActionStarted(a, k) => if k == n then Some(Busy(a, n)) else None
       case BranchTaken(_) => Some(p)
       case BranchNotTaken(_) => Some(p)
       case WorkflowPaused(_) => Some(Over(e, n))
       case WorkflowAborted => Some(Over(e, n))
       case WorkflowShutdown(_) => Some(Over(e, n))
       case _ => None)
    case Busy(action, n) =>
      (match e
       case TriggerActionAwaitingData(a, k) => if a == action && k == n then Some(Over(e, n + 1)) else None
       case ActionArgumentsInvalid(a, k) => if a == action && k == n then Some(Between(n + 1)) else None
       case ActionExecutionError(a, k, _, _) => if a == action && k == n then Some(Between(n + 1)) else None
       case ActionExecutionSuccess(a, k, _, _) => if a == action && k == n then Some(Between(n + 1)) else None
       case _ => None)
    case Over(_, _) => None
  }

  function AcceptAll(p: Option<Phase>, trace: seq<Event>): Option<Phase>
    decreases |trace|
  {
    if p.None? || trace == [] then p else AcceptAll(Accept(p.value, trace[0]), trace[1..])
  }

  lemma {:induction false} AcceptConcat(p: Option<Phase>, a: seq<Event>, b: seq<Event>)
    ensures AcceptAll(p, a + b) == AcceptAll(AcceptAll(p, a), b)
    decreases |a|
  {
    if a == [] {
      assert a + b == b;
    } else if p.Some? {
      assert (a + b)[1..] == a[1..] + b;
      AcceptConcat(Accept(p.value, a[0]), a[1..], b);
    }
  }

  /** The closing event that goes with an outcome. A run that is still going, was abandoned or failed has none, and
      one that failed inside an action has not finished that action. */
  ghost predicate Closes(p: Phase, o: Outcome, n: nat)
  {
    match o
    case Running => p == Between(n)
    case Abandoned(_) => p == Between(n)
    case Failed(at, inside) => if inside then n > 0 && p == Busy(at, n - 1) else p == Between(n)
    case Completed => p.Over? && p.n == n && p.last.WorkflowShutdown?
    case Aborted(_) => p == Over(WorkflowAborted, n)
    case Paused(at) => p == Over(WorkflowPaused(at), n)
    case AwaitingData(at) => p.Over? && p.n == n && p.last.TriggerActionAwaitingData? && p.last.action == at
  }

  lemma AcceptOne(p: Phase, e: Event)
    ensures AcceptAll(Some(p), [e]) == Accept(p, e)
  {
    assert [e][1..] == [];
  }

  lemma AcceptTwo(p: Phase, d: Event, e: Event)
    requires Accept(p, d).Some?
    ensures AcceptAll(Some(p), [d, e]) == Accept(Accept(p, d).value, e)
  {
    assert [d, e][1..] == [e];
    AcceptOne(Accept(p, d).value, e);
  }

  lemma {:induction false} BranchEventsAreQuiet(trace: seq<Event>, n: nat)
    requires BranchEvents(trace)
    ensures AcceptAll(Some(Between(n)), trace) == Some(Between(n))
  {
    if trace != [] {
      assert trace[0] in trace;
      BranchEventsAreQuiet(trace[1..], n);
    }
  }

  lemma ExecuteIsLegal(w: World, a: Action, args: seq<Argument>, resume: bool, n: nat, acc: Accumulator)
    ensures match Execute(w, a, args, resume, n, acc)
            case Crashed => true
            case Awaiting(t) => AcceptAll(Some(Between(n)), t) == Some(Over(TriggerActionAwaitingData(a.id, n), n + 1))
            case Threw(t, _) => AcceptAll(Some(Between(n)), t) == Some(Busy(a.id, n))
            case Executed(t, _, _) => AcceptAll(Some(Between(n)), t) == Some(Between(n + 1))
  {
    hide ResolveDevice, CheckedArguments;
    var done := Execute(w, a, args, resume, n, acc);
    if done.Threw? {
      AcceptOne(Between(n), ActionStarted(a.id, n));
    } else if !done.Crashed? {
      assert done.trace == [done.trace[0], done.trace[1]];
      AcceptTwo(Between(n), done.trace[0], done.trace[1]);
    }
  }

  lemma TurnIsLegal(w: World, f: Workflow, s: State, a: Action, flags: Flags)
    requires Fits(f, s)
    ensures match TakeTurn(w, f, s, a, flags)
            case Ended(run) =>
              var p := AcceptAll(Some(Between(s.execution)), run.trace);
              p.Some? && Closes(p.value, run.outcome, run.final.execution)
            case Went(step) => AcceptAll(Some(Between(s.execution)), step.trace) == Some(Between(step.state.execution))
  {
    hide Execute, Choose, Outgoing, Accept;
    AcceptEndings(s.execution, a.id);
    ExecuteIsLegal(w, a, s.args, s.resume, s.execution, s.cells.acc);
    var done := Execute(w, a, s.args, s.resume, s.execution, s.cells.acc);
    if done.Executed? {
      ChoiceTrace(w, f, Outgoing(f, a.id, 0), done.status, a.id, Written(s, a, done.result));
      BranchEventsAreQuiet(Following(w, f, s, a, done).trace, s.execution + 1);
      AcceptConcat(Some(Between(s.execution)), done.trace, Following(w, f, s, a, done).trace);
    }
  }

  lemma AcceptEndings(n: nat, at: Id)
    ensures AcceptAll(Some(Between(n)), []) == Some(Between(n))
    ensures AcceptAll(Some(Between(n)), [WorkflowPaused(at)]) == Some(Over(WorkflowPaused(at), n))
    ensures AcceptAll(Some(Between(n)), [WorkflowAborted]) == Some(Over(WorkflowAborted, n))
  {
    AcceptOne(Between(n), WorkflowPaused(at));
    AcceptOne(Between(n), WorkflowAborted);
  }

  lemma {:induction false} RunIsLegal(w: World, f: Workflow, s: State, schedule: seq<Flags>)
    requires Fits(f, s)
    ensures var r := RunFrom(w, f, s, schedule);
            var p := AcceptAll(Some(Between(s.execution)), r.trace);
            p.Some? && Closes(p.value, r.outcome, r.final.execution)
    decreases |schedule|
  {
    hide TakeTurn, Accept, Closes;
    var action := NextAction(f, s);
    if action.None? {
      ShutdownIsLegal(s);
    } else if schedule == [] {
      StandingIsLegal(s.execution);
    } else {
      TurnIsLegal(w, f, s, action.value, schedule[0]);
      var turn := TakeTurn(w, f, s, action.value, schedule[0]);
      if turn.Went? {
        RunIsLegal(w, f, turn.step.state, schedule[1..]);
        AcceptConcat(Some(Between(s.execution)), turn.step.trace, RunFrom(w, f, turn.step.state, schedule[1..]).trace);
      }
    }
  }

  lemma ShutdownIsLegal(s: State)
    ensures var r := Shutdown(s);
            var p := AcceptAll(Some(Between(s.execution)), r.trace);
            p.Some? && Closes(p.value, r.outcome, r.final.execution)
  {
    AcceptOne(Between(s.execution), WorkflowShutdown(s.cells.acc));
  }

  lemma StandingIsLegal(n: nat)
    ensures AcceptAll(Some(Between(n)), []) == Some(Between(n)) && Closes(Between(n), Running, n)
  {
  }

  /** Every trace is in the language, and its end tells the outcome: a closing event for a run that completed, was
      paused or aborted or awaits data; none for one still going, abandoned or failed; and an action left open
      exactly by an error inside it. */
  lemma TracesAreLegal(w: World, f: Workflow, s: State, schedule: seq<Flags>)
    requires Fits(f, s)
    ensures var r := ExecuteWorkflow(w, f, s, schedule);
            var p := AcceptAll(Some(Unstarted(s.execution)), r.trace);
            p.Some? && Closes(p.value, r.outcome, r.final.execution)
  {
    hide RunFrom, Closes;
    RunIsLegal(w, f, s, schedule);
    AcceptOne(Unstarted(s.execution), WorkflowExecutionStart);
    AcceptConcat(Some(Unstarted(s.execution)), [WorkflowExecutionStart], RunFrom(w, f, s, schedule).trace);
  }

  // ---------------------------------------------------------------- folding traces through the callbacks

  ghost predicate Settled(rows: seq<ActionRow>, n: nat)
  {
    forall i | 0 <= i < |rows| :: !rows[i].status.ActionExecuting? && rows[i].execution < n
  }

  /** What the record looks like at each point of a legal trace. */
  ghost predicate Matches(r: Record, p: Phase)
  {
    match p
    case Unstarted(n) => Settled(r.actions, n)
    case Between(n) => r.status == StatusRunning && Settled(r.actions, n)
    case Busy(a, n) =>
      && r.status == StatusRunning && r.actions != []
      && Settled(r.actions[..|r.actions|-1], n) && r.actions[|r.actions|-1] == ActionRow(n, a, ActionExecuting)
    case Over(e, n) =>
      && Settled(r.actions, n)
      && match e
         case WorkflowPaused(at) => r.status == StatusPaused && r.saved == Some(at)
         case TriggerActionAwaitingData(at, k) =>
           r.status == StatusAwaitingData && r.saved == Some(at) && r.actions != []
           && r.actions[|r.actions|-1] == ActionRow(k, at, ActionAwaitingData)
         case WorkflowAborted => r.status == StatusAborted && r.saved == None
         case _ => r.status == StatusCompleted && r.saved == None
  }

  lemma IndexOfFresh(rows: seq<ActionRow>, n: nat)
    requires Settled(rows, n)
    ensures IndexOf(rows, n) == None
  {
  }

  lemma ApplyMatches(r: Record, p: Phase, e: Event)
    requires Matches(r, p) && Accept(p, e).Some?
    ensures Matches(Apply(r, e), Accept(p, e).value)
  {
    if p.Between? && e.ActionStarted? {
      IndexOfFresh(r.actions, p.n);
      assert (r.actions + [ActionRow(p.n, e.action, ActionExecuting)])[..|r.actions|] == r.actions;
    }
    if p.Busy? {
      var last := |r.actions| - 1;
      assert IndexOf(r.actions, p.n) == Some(last);
      assert forall i | 0 <= i < last :: r.actions[i] == r.actions[..last][i];
    }
  }

  lemma {:induction false} ApplyAllMatches(r: Record, p: Phase, trace: seq<Event>)
    requires Matches(r, p) && AcceptAll(Some(p), trace).Some?
    ensures Matches(ApplyAll(r, trace), AcceptAll(Some(p), trace).value)
    decreases |trace|
  {
    hide Matches, Accept, Apply;
    if trace != [] {
      var next := Accept(p, trace[0]);
      if next.Some? {
        ApplyMatches(r, p, trace[0]);
        ApplyAllMatches(Apply(r, trace[0]), next.value, trace[1..]);
      }
    }
  }

  // ---------------------------------------------------------------- whole executions

  /** One leg of an execution: what the control flags do in it and the arguments its first action is given. */
  datatype Leg = Leg(schedule: seq<Flags>, args: seq<Argument>)

  datatype History = History(record: Record, last: Run)

  /** An execution as its record sees it. Between legs the server puts the record back to pending, and the next
      leg starts from the saved state with the accumulator the last one left. */
  function Live(w: World, f: Workflow, s: State, legs: seq<Leg>, r: Record): History
    requires Fits(f, s) && legs != []
    decreases |legs|
  {
    var run := ExecuteWorkflow(w, f, s, legs[0].schedule);
    var r' := ApplyAll(r.(status := StatusPending), run.trace);
    if |legs| > 1 && (r'.status == StatusPaused || r'.status == StatusAwaitingData) && r'.saved.Some? then
      Live(w, f, ResumedState(f, r'.saved.value, legs[1].args, run.final.cells.acc, run.final.execution), legs[1..], r')
    else History(r', run)
  }

  ghost predicate Faithful(r: Record, o: Outcome)
  {
    match o
    case Running => r.status == StatusRunning
    case Abandoned(_) => r.status == StatusRunning
    case Failed(_, _) => r.status == StatusRunning
    case Completed => r.status == StatusCompleted && r.saved == None
    case Aborted(_) => r.status == StatusAborted && r.saved == None
    case Paused(at) => r.status == StatusPaused && r.saved == Some(at)
    case AwaitingData(at) => r.status == StatusAwaitingData && r.saved == Some(at)
  }

  /** An error went uncaught inside an action, after its start was announced. */
  predicate RaisedInside(o: Outcome)
  {
    o.Failed? && o.inside
  }

  /** The rows that a leg leaves: all settled, except that an error inside an action leaves the last one executing. */
  ghost predicate Leaves(rows: seq<ActionRow>, o: Outcome, n: nat)
  {
    if RaisedInside(o) then
      && n > 0 && rows != [] && Settled(rows[..|rows|-1], n - 1)
      && rows[|rows|-1] == ActionRow(n - 1, o.at, ActionExecuting)
    else Settled(rows, n)
  }

  lemma ClosedLeaves(r: Record, p: Phase, o: Outcome, n: nat)
    requires Matches(r, p) && Closes(p, o, n)
    ensures Faithful(r, o) && Leaves(r.actions, o, n)
  {
  }

  lemma LegIsRecorded(w: World, f: Workflow, s: State, schedule: seq<Flags>, r: Record)
    requires Fits(f, s) && Settled(r.actions, s.execution)
    ensures var run := ExecuteWorkflow(w, f, s, schedule);
            var r' := ApplyAll(r.(status := StatusPending), run.trace);
            Faithful(r', run.outcome) && Leaves(r'.actions, run.outcome, run.final.execution)
  {
    hide ExecuteWorkflow, Apply, Accept, Matches, Closes, Faithful, Leaves;
    var run := ExecuteWorkflow(w, f, s, schedule);
    TracesAreLegal(w, f, s, schedule);
    assert Matches(r.(status := StatusPending), Unstarted(s.execution)) by { UnstartedMatches(r, s.execution); }
    ApplyAllMatches(r.(status := StatusPending), Unstarted(s.execution), run.trace);
    ClosedLeaves(ApplyAll(r.(status := StatusPending), run.trace),
                 AcceptAll(Some(Unstarted(s.execution)), run.trace).value,
                 run.outcome, run.final.execution);
  }

  lemma UnstartedMatches(r: Record, n: nat)
    requires Settled(r.actions, n)
    ensures Matches(r.(status := StatusPending), Unstarted(n))
  {
  }

  /** The rows that are left executing, by position. */
  function Executing(rows: seq<ActionRow>): set<nat>
  {
    set i: nat | i < |rows| && rows[i].status.ActionExecuting?
  }

  lemma LeavesExecuting(rows: seq<ActionRow>, o: Outcome, n: nat)
    requires Leaves(rows, o, n)
    ensures RaisedInside(o) ==> rows != [] && rows[|rows|-1].action == o.at
    ensures Executing(rows) == if RaisedInside(o) then {|rows| - 1} else {}
  {
    if RaisedInside(o) {
      assert forall i | 0 <= i < |rows| - 1 :: rows[..|rows|-1][i] == rows[i];
    }
  }

  lemma PausedIsNotRaised(r: Record, o: Outcome, n: nat)
    requires Faithful(r, o) && Leaves(r.actions, o, n) && (r.status == StatusPaused || r.status == StatusAwaitingData)
    ensures Settled(r.actions, n)
  {
  }

  /** After any number of legs of an execution the workflow status is that of the last leg's outcome, and saved state
      is there exactly for a paused or waiting one, naming its action. No action status is left executing, unless
      an error went uncaught inside an action: then exactly that action's is, the last one. */
  lemma {:induction false} ExecutionsAreRecorded(w: World, f: Workflow, s: State, legs: seq<Leg>, r: Record)
    requires Fits(f, s) && legs != [] && Settled(r.actions, s.execution)
    ensures var h := Live(w, f, s, legs, r);
            var rows := h.record.actions;
            && Faithful(h.record, h.last.outcome) && Leaves(rows, h.last.outcome, h.last.final.execution)
            && (RaisedInside(h.last.outcome) ==> rows != [] && rows[|rows|-1].action == h.last.outcome.at)
            && Executing(rows) == if RaisedInside(h.last.outcome) then {|rows| - 1} else {}
    decreases |legs|
  {
    hide ExecuteWorkflow, Faithful, Settled, Leaves, Executing;
    LegIsRecorded(w, f, s, legs[0].schedule, r);
    var run := ExecuteWorkflow(w, f, s, legs[0].schedule);
    var r' := ApplyAll(r.(status := StatusPending), run.trace);
    LeavesExecuting(r'.actions, run.outcome, run.final.execution);
    if |legs| > 1 && (r'.status == StatusPaused || r'.status == StatusAwaitingData) && r'.saved.Some? {
      PausedIsNotRaised(r', run.outcome, run.final.execution);
      ExecutionsAreRecorded(w, f, ResumedState(f, r'.saved.value, legs[1].args, run.final.cells.acc,
                                               run.final.execution),
                            legs[1..], r');
    }
  }

  /** In the middle of a leg at most the last action status is executing. */
  lemma OnlyLastExecutes(r: Record, n: nat, trace: seq<Event>)
    requires Settled(r.actions, n) && AcceptAll(Some(Unstarted(n)), trace).Some?
    ensures var rows := ApplyAll(r, trace).actions;
            forall i | 0 <= i < |rows| - 1 :: !rows[i].status.ActionExecuting?
  {
    hide Apply, Accept;
    ApplyAllMatches(r, Unstarted(n), trace);
    var rows := ApplyAll(r, trace).actions;
    assert rows != [] ==> forall i | 0 <= i < |rows| - 1 :: rows[..|rows|-1][i] == rows[i];
  }
}
