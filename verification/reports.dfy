/** What a run reports and remembers, told from its events: what every action was given and returned, on what every
    branch was judged, and what the accumulator holds. */
module Reports {
  import opened Json
  import opened Elements
  import opened Parameters
  import opened Conditions
  import opened Engine
  import opened Branches
  import opened References
  import opened Pausing
  import opened Statuses
  import opened Traces
  import opened RowResults

  // ---------------------------------------------------------------- what actions report

  /** The arguments of the action about to be executed. */
  function Given(t: State, a: Action): seq<Argument>
  {
    if t.args != [] then t.args else a.arguments
  }

  /** The check of the action's arguments comes to that. */
  ghost predicate Checks(w: World, t: State, a: Action, c: Checked<map<string, Value>>)
  {
    CheckParameters(w, w.actionApi(a.app, a.name), Given(t, a), t.cells.acc) == c
  }

  /** The app function was called with the action's device and checked arguments, and returned that result with that
      status, its own or else the default one. */
  ghost predicate Returned(w: World, t: State, a: Action, result: Value, status: string)
  {
    exists device: Option<Value>, args ::
      && (a.device.None? ==> device.None?)
      && (a.device.Some? ==> device.Some? && GetValue(w, a.device.value, t.cells.acc) == device)
      && Checks(w, t, a, Accepts(args))
      && var r := w.runAction(a.app, a.name, device, args);
         r.result == result
         && (r.status == Some(status) || (r.status == None && status == w.defaultStatus(a.app, a.name)))
  }

  /** The event says of the action about to be executed what comes of executing it. */
  ghost predicate Reported(w: World, t: State, a: Action, e: Event)
  {
    match e
    case ActionStarted(id, n) => id == a.id && n == t.execution
    case TriggerActionAwaitingData(id, n) => id == a.id && n == t.execution && a.trigger.Some? && !t.resume
    case ActionArgumentsInvalid(id, n) => id == a.id && n == t.execution && Checks(w, t, a, Refuses)
    case ActionExecutionError(id, n, result, status) =>
      && id == a.id && n == t.execution && Returned(w, t, a, result, status)
      && w.isFailure(a.app, a.name, status) == Some(true)
    case ActionExecutionSuccess(id, n, result, status) =>
      && id == a.id && n == t.execution && Returned(w, t, a, result, status)
      && w.isFailure(a.app, a.name, status) == Some(false)
    case WorkflowPaused(at) => at == a.id
    case _ => true
  }

  lemma CallReports(w: World, t: State, a: Action, device: Option<Value>, checked: Checked<map<string, Value>>)
    requires Checks(w, t, a, checked)
    requires (a.device.None? ==> device.None?)
             && (a.device.Some? ==> device.Some? && GetValue(w, a.device.value, t.cells.acc) == device)
    requires a.trigger.None? || t.resume
    ensures forall e :: e in Call(w, a, device, checked, t.execution).trace ==> Reported(w, t, a, e)
  {
    hide Checks, GetValue;
    if checked.Accepts? {
      var r := w.runAction(a.app, a.name, device, checked.value);
      assert Returned(w, t, a, r.result, StatusOf(w, a, r));
      hide Returned;
    }
  }

  lemma ExecuteReports(w: World, t: State, a: Action)
    ensures var done := Execute(w, a, t.args, t.resume, t.execution, t.cells.acc);
            !done.Crashed? ==> forall e :: e in done.trace ==> Reported(w, t, a, e)
  {
    hide GetValue, CheckParameters, Call, Returned;
    var device := ResolveDevice(w, a, t.cells.acc);
    if device.Some? && (a.trigger.None? || t.resume) {
      CallReports(w, t, a, device.value, CheckedArguments(w, a, t.args, t.cells.acc));
    }
  }

  lemma TurnReports(w: World, f: Workflow, t: State, a: Action, flags: Flags)
    requires Fits(f, t)
    ensures var turn := TakeTurn(w, f, t, a, flags);
            forall e :: e in (if turn.Ended? then turn.run.trace else turn.step.trace) ==> Reported(w, t, a, e)
  {
    hide Execute, Choose, Outgoing;
    var done := Execute(w, a, t.args, t.resume, t.execution, t.cells.acc);
    ExecuteReports(w, t, a);
    if done.Executed? {
      ChoiceTrace(w, f, Outgoing(f, a.id, 0), done.status, a.id, Written(t, a, done.result));
      hide Checks, Returned;
    }
  }

  /** After m turns the run stands before an action, and the event says what comes of that action. */
  ghost predicate ReportedAfter(w: World, f: Workflow, s: State, schedule: seq<Flags>, m: nat, e: Event)
    requires Fits(f, s) && m <= |schedule|
  {
    var t := RunFrom(w, f, s, schedule[..m]);
    t.outcome.Running? && NextAction(f, t.final).Some? && Reported(w, t.final, NextAction(f, t.final).value, e)
  }

  lemma LaterTurn(w: World, f: Workflow, s: State, schedule: seq<Flags>, m: nat, e: Event)
    requires Fits(f, s) && schedule != [] && m < |schedule| && NextAction(f, s).Some?
    requires TakeTurn(w, f, s, NextAction(f, s).value, schedule[0]).Went?
    requires ReportedAfter(w, f, TakeTurn(w, f, s, NextAction(f, s).value, schedule[0]).step.state, schedule[1..], m, e)
    ensures ReportedAfter(w, f, s, schedule, m + 1, e)
  {
    hide TakeTurn, Reported;
    assert schedule[..m+1][0] == schedule[0] && schedule[..m+1][1..] == schedule[1..][..m];
  }

  /** Every event of every run that names an action says what came of the action that the run stood before: the
      listed one of that id, called with its resolved device and with the checked values of the arguments it was
      given; a failure exactly when its API declares the status one. */
  lemma {:induction false} EventsAreReported(w: World, f: Workflow, s: State, schedule: seq<Flags>, e: Event)
    returns (m: nat)
    requires Fits(f, s) && e in RunFrom(w, f, s, schedule).trace && !e.WorkflowShutdown?
    ensures m < |schedule| && ReportedAfter(w, f, s, schedule, m, e)
    decreases |schedule|
  {
    hide TakeTurn, Reported;
    var a := NextAction(f, s).value;
    TurnReports(w, f, s, a, schedule[0]);
    var turn := TakeTurn(w, f, s, a, schedule[0]);
    if e in (if turn.Ended? then turn.run.trace else turn.step.trace) {
      m := 0;
      assert RunFrom(w, f, s, schedule[..0]) == Run([], [], Running, s);
    } else {
      var k := EventsAreReported(w, f, turn.step.state, schedule[1..], e);
      LaterTurn(w, f, s, schedule, k, e);
      m := k + 1;
    }
  }

  /** In every run a result is announced as a failure exactly when the action's API declares its status one, and as a
      success exactly when it declares it none. */
  lemma ResultsAreClassified(w: World, f: Workflow, s: State, schedule: seq<Flags>, e: Event)
    requires Fits(f, s) && e in RunFrom(w, f, s, schedule).trace
    requires e.ActionExecutionError? || e.ActionExecutionSuccess?
    ensures var a := FindAction(f.actions, e.action);
            a.Some? && w.isFailure(a.value.app, a.value.name, e.status) == Some(e.ActionExecutionError?)
  {
    hide RunFrom, Returned;
    var m := EventsAreReported(w, f, s, schedule, e);
  }

  /** The row of a finished action says failure exactly when the action's API declares its status one. */
  lemma RowsFollowTheApi(w: World, f: Workflow, s: State, schedule: seq<Flags>, r: Record, e: Event)
    requires Fits(f, s) && Settled(r.actions, s.execution) && e in RunFrom(w, f, s, schedule).trace
    requires e.ActionExecutionError? || e.ActionExecutionSuccess?
    ensures var rows := ApplyAll(r.(status := StatusPending), ExecuteWorkflow(w, f, s, schedule).trace).actions;
            var a := FindAction(f.actions, e.action);
            && a.Some?
            && var failed := w.isFailure(a.value.app, a.value.name, e.status) == Some(true);
               Tells(rows, ActionRow(e.execution, e.action, if failed then ActionFailure else ActionSuccess))
  {
    hide RunFrom, ApplyAll, AcceptAll, Tells, FindAction, Settled;
    ResultsAreClassified(w, f, s, schedule, e);
    TracesAreLegal(w, f, s, schedule);
    RowsTell(r.(status := StatusPending), s.execution, ExecuteWorkflow(w, f, s, schedule).trace);
    assert e in ExecuteWorkflow(w, f, s, schedule).trace;
  }

  // ---------------------------------------------------------------- on what branches are judged

  /** The branch is of the status, and has no condition or one that holds of the result, read beside the accumulator. */
  ghost predicate Follows(w: World, b: Edge, status: string, result: Value, acc: Accumulator)
  {
    && b.status == status
    && (b.condition.None? || Eval(b.condition.value, (c: Condition) => EvalCondition(w, c, result, acc)).holds)
  }

  ghost predicate Falls(w: World, b: Edge, status: string, result: Value, acc: Accumulator)
  {
    && b.status == status && b.condition.Some?
    && Eval(b.condition.value, (c: Condition) => EvalCondition(w, c, result, acc)).raised
  }

  /** What examining branches announces: every one of the status is announced as not taken, but for the last, which may
      have been taken, or have raised. */
  function Notes(f: Workflow, status: string, js: seq<nat>, taken: bool, raised: bool): seq<Event>
    requires Positions(f, js)
  {
    if js == [] then []
    else if |js| == 1 && taken then [BranchTaken(js[0])]
    else if |js| == 1 && raised then []
    else (if f.branches[js[0]].status == status then [BranchNotTaken(js[0])] else [])
         + Notes(f, status, js[1..], taken, raised)
  }

  /** The cells when the first k + 1 of the branches have been counted after the action's result was written. */
  function CellsAt(f: Workflow, t: State, a: Action, result: Value, js: seq<nat>, k: nat): Cells
    requires Fits(f, t) && Positions(f, js) && k < |js|
  {
    CountAll(f, js[..k+1], Cells(t.cells.acc[a.id := result], t.cells.counters))
  }

  /** The k-th of the branches follows, or falls, exactly if it is the one taken, or the one that raised: the last. */
  ghost predicate JudgedAt(w: World, f: Workflow, t: State, a: Action, result: Value, status: string, js: seq<nat>,
                           taken: bool, raised: bool, k: nat)
    requires Fits(f, t) && Positions(f, js) && k < |js|
  {
    var b, acc := f.branches[js[k]], CellsAt(f, t, a, result, js, k).acc;
    && (Follows(w, b, status, result, acc) <==> taken && k == |js| - 1)
    && (Falls(w, b, status, result, acc) <==> raised && k == |js| - 1)
  }

  /** The branches `js` were examined after the action returned the result: in order, each on the result and on the
      accumulator with the counts so far, its own among them; the first that follows is taken, and the first that
      raises ends the run. */
  ghost predicate Judged(w: World, f: Workflow, t: State, a: Action, result: Value, status: string, js: seq<nat>,
                         taken: bool, raised: bool)
    requires Fits(f, t)
  {
    && js <= Outgoing(f, a.id, 0)
    && (if taken || raised then js != [] && !(taken && raised) else js == Outgoing(f, a.id, 0))
    && forall k: nat | k < |js| :: JudgedAt(w, f, t, a, result, status, js, taken, raised, k)
  }

  lemma {:induction false} CountAllKeeps(f: Workflow, js: seq<nat>, cells: Cells, id: Id)
    requires Positions(f, js) && |cells.counters| == |f.branches| && id !in BranchIds(f)
    ensures var acc := CountAll(f, js, cells).acc;
            (id in acc <==> id in cells.acc) && (id in acc ==> acc[id] == cells.acc[id])
    decreases |js|
  {
    if js != [] {
      assert f.branches[js[0]].id in BranchIds(f);
      CountAllKeeps(f, js[1..], Count(f, js[0], cells), id);
    }
  }

  lemma JudgedOnResult(w: World, b: Edge, status: string, current: Id, result: Value, acc: Accumulator)
    requires current in acc && acc[current] == result
    ensures Takeable(w, b, status, current, acc) == Follows(w, b, status, result, acc)
    ensures Breaks(w, b, status, current, acc) == Falls(w, b, status, result, acc)
  {
    if b.condition.Some? {
      VisitsDecide(b.condition.value, LeafOf(w, result, acc), (c: Condition) => EvalCondition(w, c, result, acc));
    }
  }

  lemma {:induction false} ChoiceNotes(w: World, f: Workflow, js: seq<nat>, status: string, current: Id, cells: Cells)
    requires Positions(f, js) && |f.branches| == |cells.counters| && current in cells.acc
    ensures var c := Choose(w, f, js, status, current, cells);
            && Positions(f, c.examined)
            && (js != [] ==> c.examined != [])
            && c.trace == Notes(f, status, c.examined, c.taken.Some?, c.raised)
  {
    if js != [] {
      hide Takeable, Breaks;
      var counted := Count(f, js[0], cells);
      assert [js[0]][1..] == [];
      if !Takeable(w, f.branches[js[0]], status, current, counted.acc)
         && !Breaks(w, f.branches[js[0]], status, current, counted.acc) {
        var rest := Choose(w, f, js[1..], status, current, counted);
        ChoiceNotes(w, f, js[1..], status, current, counted);
        assert ([js[0]] + rest.examined)[1..] == rest.examined;
        if |js| == 1 {
          assert js[1..] == [];
        } else {
          assert js[1..] != [] && |[js[0]] + rest.examined| > 1;
        }
      }
    }
  }

  lemma ActionIsNoBranch(f: Workflow, a: Action)
    requires DistinctIds(f) && a in f.actions
    ensures a.id !in BranchIds(f)
  {
  }

  lemma ExaminedIsJudged(w: World, f: Workflow, t: State, a: Action, done: Done, js: seq<nat>, k: nat)
    requires Fits(f, t) && a.id !in BranchIds(f) && done.Executed? && Positions(f, js)
    requires js <= Outgoing(f, a.id, 0) && k < |js|
    ensures var b, acc := f.branches[js[k]], CellsAt(f, t, a, done.result, js, k).acc;
            var all, start := Outgoing(f, a.id, 0), Written(t, a, done.result);
            && (Follows(w, b, done.status, done.result, acc) <==> TakenAt(w, f, all, k, done.status, a.id, start))
            && (Falls(w, b, done.status, done.result, acc) <==> BreaksAt(w, f, all, k, done.status, a.id, start))
  {
    var all, start := Outgoing(f, a.id, 0), Written(t, a, done.result);
    assert all[..k+1] == js[..k+1] && all[k] == js[k];
    hide Outgoing, Follows, Falls, Takeable, Breaks, CountAll, BranchIds;
    CountAllKeeps(f, js[..k+1], start, a.id);
    JudgedOnResult(w, f.branches[js[k]], done.status, a.id, done.result, CellsAt(f, t, a, done.result, js, k).acc);
  }

  lemma PrefixHasPositions(f: Workflow, js: seq<nat>, all: seq<nat>)
    requires Positions(f, all) && js <= all
    ensures Positions(f, js)
  {
  }

  /** The choice, its cells and its announcements, told by the branches it examined of all the candidates. */
  ghost predicate ChosenFrom(f: Workflow, all: seq<nat>, start: Cells, status: string, c: Choice)
    requires Positions(f, all) && |start.counters| == |f.branches|
  {
    && c.examined <= all && Positions(f, c.examined) && c.cells == CountAll(f, c.examined, start)
    && (c.taken.None? && !c.raised ==> c.examined == all)
    && (c.taken.Some? ==> c.examined != [] && c.taken.value == c.examined[|c.examined|-1] && !c.raised)
    && (c.raised ==> c.examined != [])
    && c.trace == Notes(f, status, c.examined, c.taken.Some?, c.raised)
  }

  lemma ChoiceFacts(w: World, f: Workflow, all: seq<nat>, status: string, current: Id, start: Cells)
    requires Positions(f, all) && |start.counters| == |f.branches| && current in start.acc
    ensures ChosenFrom(f, all, start, status, Choose(w, f, all, status, current, start))
  {
    ChoosesFirst(w, f, all, status, current, start);
    ChoiceNotes(w, f, all, status, current, start);
    hide Choose, TakenAt, BreaksAt, Notes, CountAll;
  }

  lemma FollowingFacts(w: World, f: Workflow, t: State, a: Action, done: Done)
    requires Fits(f, t) && done.Executed?
    ensures ChosenFrom(f, Outgoing(f, a.id, 0), Cells(t.cells.acc[a.id := done.result], t.cells.counters), done.status,
                       Following(w, f, t, a, done))
  {
    ChoiceFacts(w, f, Outgoing(f, a.id, 0), done.status, a.id, Written(t, a, done.result));
    hide Outgoing, ChosenFrom, Choose;
  }

  lemma FollowingAt(w: World, f: Workflow, t: State, a: Action, done: Done, k: nat)
    requires Fits(f, t) && a.id !in BranchIds(f) && done.Executed?
    requires k < |Following(w, f, t, a, done).examined|
    ensures var c := Following(w, f, t, a, done);
            Positions(f, c.examined)
            && JudgedAt(w, f, t, a, done.result, done.status, c.examined, c.taken.Some?, c.raised, k)
  {
    var c := Following(w, f, t, a, done);
    FollowingFacts(w, f, t, a, done);
    ExaminedIsJudged(w, f, t, a, done, c.examined, k);
    ChoosesFirst(w, f, Outgoing(f, a.id, 0), done.status, a.id, Written(t, a, done.result));
    hide Choose, Outgoing, TakenAt, BreaksAt, Notes, CountAll, Follows, Falls, CellsAt, BranchIds;
  }

  /** What follows an executed action. */
  lemma FollowingIsJudged(w: World, f: Workflow, t: State, a: Action, done: Done)
    requires Fits(f, t) && DistinctIds(f) && a in f.actions && done.Executed?
    ensures var c := Following(w, f, t, a, done);
            && Positions(f, c.examined)
            && Judged(w, f, t, a, done.result, done.status, c.examined, c.taken.Some?, c.raised)
  {
    FollowingFacts(w, f, t, a, done);
    ActionIsNoBranch(f, a);
    hide Following, Outgoing, JudgedAt, Notes, DistinctIds, BranchIds, CountAll;
    var c := Following(w, f, t, a, done);
    forall k: nat | k < |c.examined|
      ensures JudgedAt(w, f, t, a, done.result, done.status, c.examined, c.taken.Some?, c.raised, k)
    {
      FollowingAt(w, f, t, a, done, k);
    }
  }

  /** The result and status that an event of a finished action stands for. */
  function ResultOf(w: World, e: Event): Option<(Value, string)>
  {
    match e
    case ActionArgumentsInvalid(_, _) => Some((w.invalidResult, "InvalidArguments"))
    case ActionExecutionError(_, _, result, status) => Some((result, status))
    case ActionExecutionSuccess(_, _, result, status) => Some((result, status))
    case _ => None
  }

  /** A turn from state t that announced a result, told from its events, the branches it examined and the run it makes:
      the branches are judged on that result; the run goes on to the destination of the one taken, if that is a listed
      action; it fails if one raised; and else it shuts down with the accumulator and clears it. */
  ghost predicate GoesOnBy(w: World, f: Workflow, t: State, a: Action, result: Value, status: string, r: Run,
                           taken: bool, raised: bool)
    requires Fits(f, t)
  {
    && |r.trace| >= 2 && Judged(w, f, t, a, result, status, r.examined, taken, raised)
    && var next := if taken then Some(f.branches[r.examined[|r.examined|-1]].destination) else None;
       Goes(f, t, a, r, CountAll(f, r.examined, Cells(t.cells.acc[a.id := result], t.cells.counters)),
            r.trace[..2] + Notes(f, status, r.examined, taken, raised), next, raised)
  }

  /** How the run goes, by where it goes next. */
  ghost predicate Goes(f: Workflow, t: State, a: Action, r: Run, cells: Cells, trace: seq<Event>, next: Option<Id>,
                       raised: bool)
  {
    if raised then r.trace == trace && r.outcome == Failed(a.id, false) && r.final.cells == cells
    else if next.Some? && FindAction(f.actions, next.value).Some? then
      r.trace == trace && r.outcome == Running && r.final == State(next, cells, [], t.resume, t.execution + 1)
    else
      && r.trace == trace + [WorkflowShutdown(cells.acc)] && r.outcome == Completed
      && r.final.cells == cells.(acc := map[])
  }

  lemma ExecutedIsTold(w: World, t: State, a: Action)
    ensures var done := Execute(w, a, t.args, t.resume, t.execution, t.cells.acc);
            match done
            case Crashed => true
            case Awaiting(trace) => |trace| == 2 && ResultOf(w, trace[1]) == None
            case Threw(trace, _) => |trace| == 1
            case Executed(trace, result, status) => |trace| == 2 && ResultOf(w, trace[1]) == Some((result, status))
  {
    hide ResolveDevice, CheckedArguments;
  }

  /** The run of a turn on its own. */
  function Alone(w: World, f: Workflow, turn: Turn): Run
    requires turn.Went? ==> Fits(f, turn.step.state)
  {
    match turn case Ended(run) => run case Went(step) => Then(step, RunFrom(w, f, step.state, []))
  }

  lemma AfterGoes(w: World, f: Workflow, t: State, a: Action, done: Done)
    requires Fits(f, t) && done.Executed? && |done.trace| == 2 && done.status != TRIGGER
    ensures var c := Following(w, f, t, a, done);
            var next := if c.taken.Some? then Some(f.branches[c.taken.value].destination) else None;
            var r := Alone(w, f, TurnAfter(w, f, t, a, done));
            && |r.trace| >= 2 && r.trace[..2] == done.trace && r.examined == c.examined
            && Goes(f, t, a, r, c.cells, done.trace + c.trace, next, c.raised)
  {
    hide Following, FindAction;
    var c := Following(w, f, t, a, done);
    assert done.trace + c.trace + [] == done.trace + c.trace && c.examined + [] == c.examined;
  }

  lemma AfterGoesOn(w: World, f: Workflow, t: State, a: Action, done: Done)
    requires Fits(f, t) && DistinctIds(f) && a in f.actions && done.Executed? && |done.trace| == 2
             && done.status != TRIGGER
    ensures var c := Following(w, f, t, a, done);
            GoesOnBy(w, f, t, a, done.result, done.status, Alone(w, f, TurnAfter(w, f, t, a, done)), c.taken.Some?,
                     c.raised)
  {
    FollowingIsJudged(w, f, t, a, done);
    FollowingFacts(w, f, t, a, done);
    AfterGoes(w, f, t, a, done);
    hide Following, Judged, Notes, CountAll, DistinctIds, Outgoing, Goes, Alone, TurnAfter;
  }

  /** What the next turn adds to a run. */
  function News(longer: Run, r: Run): Run
    requires |r.trace| <= |longer.trace| && |r.examined| <= |longer.examined|
  {
    longer.(trace := longer.trace[|r.trace|..], examined := longer.examined[|r.examined|..])
  }

  ghost predicate BranchesFit(w: World, f: Workflow, t: State, a: Action, r: Run)
    requires Fits(f, t)
  {
    if |r.trace| >= 2 && ResultOf(w, r.trace[1]).Some? && ResultOf(w, r.trace[1]).value.1 != "trigger" then
      var (result, status) := ResultOf(w, r.trace[1]).value;
      exists taken, raised :: GoesOnBy(w, f, t, a, result, status, r, taken, raised)
    else r.examined == []
  }

  lemma TurnBranchesFit(w: World, f: Workflow, t: State, a: Action)
    requires Fits(f, t) && DistinctIds(f) && NextAction(f, t) == Some(a)
    ensures BranchesFit(w, f, t, a, RunFrom(w, f, t, [QUIET]))
  {
    ExecutedIsTold(w, t, a);
    var done := Execute(w, a, t.args, t.resume, t.execution, t.cells.acc);
    assert [QUIET][0] == QUIET && [QUIET][1..] == [];
    assert a in f.actions;
    if done.Executed? {
      AfterTrace(w, f, t, a, done);
      if done.status != TRIGGER {
        AfterGoesOn(w, f, t, a, done);
      }
    }
    hide Execute, Following, DistinctIds, GoesOnBy, NextAction, TurnAfter, ResultOf;
  }

  lemma AfterTrace(w: World, f: Workflow, t: State, a: Action, done: Done)
    requires Fits(f, t) && done.Executed? && |done.trace| == 2
    ensures var r := Alone(w, f, TurnAfter(w, f, t, a, done));
            |r.trace| >= 2 && r.trace[1] == done.trace[1] && (done.status == TRIGGER ==> r.examined == [])
  {
    hide Following, FindAction;
  }

  /** In every run, at every action it comes to: the branches examined after it are judged, in order, on the result that
      its event carries and on the accumulator with their own counts; the first that follows is taken, the others of
      that status are announced as not taken, and the run goes on, fails or shuts down accordingly. Without a result,
      or with the status "trigger", none is examined. */
  lemma BranchesAreJudged(w: World, f: Workflow, s: State, before: seq<Flags>)
    requires Fits(f, s) && DistinctIds(f)
    requires RunFrom(w, f, s, before).outcome.Running? && NextAction(f, RunFrom(w, f, s, before).final).Some?
    ensures var r, longer := RunFrom(w, f, s, before), RunFrom(w, f, s, before + [QUIET]);
            && r.trace <= longer.trace && r.examined <= longer.examined
            && BranchesFit(w, f, r.final, NextAction(f, r.final).value, News(longer, r))
  {
    hide RunFrom, BranchesFit, DistinctIds;
    var r := RunFrom(w, f, s, before);
    RunConcat(w, f, s, before, [QUIET]);
    TurnBranchesFit(w, f, r.final, NextAction(f, r.final).value);
    var next := RunFrom(w, f, r.final, [QUIET]);
    assert (r.trace + next.trace)[|r.trace|..] == next.trace;
    assert (r.examined + next.examined)[|r.examined|..] == next.examined;
  }

  // ---------------------------------------------------------------- nothing goes unreported

  predicate Resolves(w: World, t: State, a: Action)
  {
    a.device.None? || GetValue(w, a.device.value, t.cells.acc).Some?
  }

  /** The status returned is one that the action's API does not declare. */
  ghost predicate Undeclared(w: World, t: State, a: Action)
  {
    exists result, status :: Returned(w, t, a, result, status) && w.isFailure(a.app, a.name, status) == None
  }

  /** What a turn from state t announces first: nothing exactly if the device does not resolve; otherwise the start,
      then the wait exactly if the action has a trigger and was not resumed, and otherwise a result, unless the check
      raised or the status is not declared. */
  ghost predicate Announced(w: World, t: State, a: Action, r: Run)
  {
    if !Resolves(w, t, a) then r.trace == [] && r.outcome == Failed(a.id, false)
    else
      && r.trace != [] && r.trace[0] == ActionStarted(a.id, t.execution)
      && if a.trigger.Some? && !t.resume then
           |r.trace| == 2 && r.trace[1].TriggerActionAwaitingData? && r.outcome == AwaitingData(a.id)
         else if Checks(w, t, a, Raises) || Undeclared(w, t, a) then |r.trace| == 1 && r.outcome == Failed(a.id, true)
         else |r.trace| >= 2 && ResultOf(w, r.trace[1]).Some?
  }

  lemma OneStatus(w: World, t: State, a: Action, device: Option<Value>, args: map<string, Value>, result: Value,
                  status: string)
    requires (a.device.None? ==> device.None?)
             && (a.device.Some? ==> device.Some? && GetValue(w, a.device.value, t.cells.acc) == device)
    requires Checks(w, t, a, Accepts(args))
    ensures var r := w.runAction(a.app, a.name, device, args);
            Returned(w, t, a, result, status) <==> result == r.result && status == StatusOf(w, a, r)
  {
    hide GetValue, CheckParameters;
  }

  lemma ExecuteIsAnnounced(w: World, t: State, a: Action)
    ensures var done := Execute(w, a, t.args, t.resume, t.execution, t.cells.acc);
            && (done.Crashed? <==> !Resolves(w, t, a))
            && (!done.Crashed? ==> done.trace != [] && done.trace[0] == ActionStarted(a.id, t.execution))
            && (done.Awaiting? <==> Resolves(w, t, a) && a.trigger.Some? && !t.resume)
            && (done.Awaiting? ==> |done.trace| == 2 && done.trace[1].TriggerActionAwaitingData?)
            && (!done.Crashed? && !done.Awaiting? ==>
                  (done.Threw? <==> Checks(w, t, a, Raises) || Undeclared(w, t, a)))
            && (done.Threw? ==> |done.trace| == 1)
            && (done.Executed? ==> |done.trace| == 2 && ResultOf(w, done.trace[1]).Some?)
  {
    hide GetValue, CheckParameters, Returned;
    var device := ResolveDevice(w, a, t.cells.acc);
    var checked := CheckedArguments(w, a, t.args, t.cells.acc);
    assert Checks(w, t, a, checked);
    if device.Some? && checked.Accepts? {
      var r := w.runAction(a.app, a.name, device.value, checked.value);
      forall result, status
        ensures Returned(w, t, a, result, status) <==> result == r.result && status == StatusOf(w, a, r)
      {
        OneStatus(w, t, a, device.value, checked.value, result, status);
      }
      assert Returned(w, t, a, r.result, StatusOf(w, a, r));
    } else if device.Some? {
      NoneReturned(w, t, a, checked);
    }
  }

  lemma NoneReturned(w: World, t: State, a: Action, checked: Checked<map<string, Value>>)
    requires Checks(w, t, a, checked) && !checked.Accepts?
    ensures !Undeclared(w, t, a)
  {
    hide CheckParameters, GetValue;
  }

  lemma TurnIsAnnounced(w: World, f: Workflow, t: State, a: Action)
    requires Fits(f, t) && NextAction(f, t) == Some(a)
    ensures Announced(w, t, a, RunFrom(w, f, t, [QUIET]))
  {
    ExecuteIsAnnounced(w, t, a);
    hide Execute, Following, Checks, Undeclared, Resolves, ResultOf, FindAction;
    assert [QUIET][0] == QUIET && [QUIET][1..] == [];
  }

  /** In every run, at every action it comes to, the run announces the start of the action and what comes of it, and
      is silent only where the engine lets an error go. */
  lemma RunsAnnounceAll(w: World, f: Workflow, s: State, before: seq<Flags>)
    requires Fits(f, s) && RunFrom(w, f, s, before).outcome.Running?
    requires NextAction(f, RunFrom(w, f, s, before).final).Some?
    ensures var r, longer := RunFrom(w, f, s, before), RunFrom(w, f, s, before + [QUIET]);
            && r.trace <= longer.trace && r.examined <= longer.examined
            && Announced(w, r.final, NextAction(f, r.final).value, News(longer, r))
  {
    hide RunFrom, NextAction;
    var r := RunFrom(w, f, s, before);
    RunConcat(w, f, s, before, [QUIET]);
    TurnIsAnnounced(w, f, r.final, NextAction(f, r.final).value);
    var next := RunFrom(w, f, r.final, [QUIET]);
    assert (r.trace + next.trace)[|r.trace|..] == next.trace;
    hide Checks, Undeclared, Resolves, ResultOf;
  }

  // ---------------------------------------------------------------- what the accumulator holds

  /** The result that the last event of a finished execution of the action carries. */
  function LastResult(w: World, trace: seq<Event>, action: Id): Option<Value>
  {
    if trace == [] then None
    else
      var e := trace[|trace|-1];
      if ResultOf(w, e).Some? && e.action == action then Some(ResultOf(w, e).value.0)
      else LastResult(w, trace[..|trace|-1], action)
  }

  lemma {:induction false} LastOfConcat(w: World, a: seq<Event>, b: seq<Event>, action: Id)
    ensures LastResult(w, a + b, action) ==
            if LastResult(w, b, action).Some? then LastResult(w, b, action) else LastResult(w, a, action)
    decreases |b|
  {
    if b == [] {
      assert a + b == a;
    } else {
      assert (a + b)[..|a + b|-1] == a + b[..|b|-1];
      LastOfConcat(w, a, b[..|b|-1], action);
    }
  }

  /** The entry is the last result, or what it was. */
  ghost predicate Holds(w: World, before: Accumulator, trace: seq<Event>, after: Accumulator, id: Id)
  {
    match LastResult(w, trace, id)
    case Some(v) => id in after && after[id] == v
    case None => (id in after <==> id in before) && (id in after ==> after[id] == before[id])
  }

  lemma {:induction false} NoResults(w: World, trace: seq<Event>, action: Id)
    requires forall e :: e in trace ==> ResultOf(w, e).None? || e.action != action
    ensures LastResult(w, trace, action) == None
    decreases |trace|
  {
    if trace != [] {
      assert trace[|trace|-1] in trace;
      NoResults(w, trace[..|trace|-1], action);
    }
  }

  lemma BranchesHaveNoResults(w: World, trace: seq<Event>, action: Id)
    requires BranchEvents(trace)
    ensures LastResult(w, trace, action) == None
  {
    NoResults(w, trace, action);
  }

  lemma ExecutedHolds(w: World, t: State, a: Action, id: Id)
    ensures var done := Execute(w, a, t.args, t.resume, t.execution, t.cells.acc);
            !done.Crashed? ==>
              LastResult(w, done.trace, id) == if done.Executed? && id == a.id then Some(done.result) else None
  {
    hide ResolveDevice, CheckedArguments;
    var done := Execute(w, a, t.args, t.resume, t.execution, t.cells.acc);
    if done.Executed? && id == a.id {
    } else if !done.Crashed? {
      NoResults(w, done.trace, id);
    }
  }

  lemma AfterHolds(w: World, f: Workflow, t: State, a: Action, done: Done, id: Id)
    requires Fits(f, t) && id !in BranchIds(f) && done.Executed?
    requires LastResult(w, done.trace, id) == if id == a.id then Some(done.result) else None
    ensures var c := Following(w, f, t, a, done);
            Holds(w, t.cells.acc, done.trace + c.trace, c.cells.acc, id)
    ensures Holds(w, t.cells.acc, done.trace, Written(t, a, done.result).acc, id)
  {
    var c := Following(w, f, t, a, done);
    FollowingFacts(w, f, t, a, done);
    ChoiceTrace(w, f, Outgoing(f, a.id, 0), done.status, a.id, Written(t, a, done.result));
    assert BranchEvents(c.trace);
    CountAllKeeps(f, c.examined, Written(t, a, done.result), id);
    hide Following, Outgoing, Notes, CountAll, BranchIds, LastResult;
    BranchesHaveNoResults(w, c.trace, id);
    LastOfConcat(w, done.trace, c.trace, id);
  }

  lemma TurnHolds(w: World, f: Workflow, t: State, a: Action, flags: Flags, id: Id)
    requires Fits(f, t) && id !in BranchIds(f)
    ensures match TakeTurn(w, f, t, a, flags)
            case Went(step) => Holds(w, t.cells.acc, step.trace, step.state.cells.acc, id)
            case Ended(run) =>
              !run.outcome.Completed?
              && ((RaisedInside(run.outcome) && run.outcome.at == id)
                  || Holds(w, t.cells.acc, run.trace, run.final.cells.acc, id))
  {
    hide Execute, Following, BranchIds;
    var done := Execute(w, a, t.args, t.resume, t.execution, t.cells.acc);
    ExecutedHolds(w, t, a, id);
    if done.Executed? {
      AfterHolds(w, f, t, a, done, id);
    }
    NoResults(w, [WorkflowPaused(a.id)], id);
    NoResults(w, [WorkflowAborted], id);
    NoResults(w, [], id);
    hide LastResult;
  }

  lemma HoldsOn(w: World, a: Accumulator, x: seq<Event>, b: Accumulator, y: seq<Event>, c: Accumulator, id: Id)
    requires Holds(w, a, x, b, id) && Holds(w, b, y, c, id)
    ensures Holds(w, a, x + y, c, id)
  {
    LastOfConcat(w, x, y, id);
    hide LastResult;
  }

  /** At the end of every run each entry but the branches' counts holds the last result that was announced for it, and
      without one is what it was; for a completed run that is the accumulator its shutdown carries. The one exception
      is an action that the run raised inside, whose result may be there unannounced. */
  lemma {:induction false} AccumulatorHoldsResults(w: World, f: Workflow, s: State, schedule: seq<Flags>, id: Id)
    requires Fits(f, s) && id !in BranchIds(f)
    ensures var r := RunFrom(w, f, s, schedule);
            (RaisedInside(r.outcome) && r.outcome.at == id) || Holds(w, s.cells.acc, r.trace, LastAccumulator(r), id)
    decreases |schedule|
  {
    hide TakeTurn, Holds, BranchIds;
    var action := NextAction(f, s);
    if action.None? || schedule == [] {
      StandingHolds(w, s, id);
    } else {
      TurnHolds(w, f, s, action.value, schedule[0], id);
      var turn := TakeTurn(w, f, s, action.value, schedule[0]);
      if turn.Went? {
        var rest := RunFrom(w, f, turn.step.state, schedule[1..]);
        AccumulatorHoldsResults(w, f, turn.step.state, schedule[1..], id);
        RunEndsTrace(w, f, turn.step.state, schedule[1..]);
        if Holds(w, turn.step.state.cells.acc, rest.trace, LastAccumulator(rest), id) {
          HoldsOn(w, s.cells.acc, turn.step.trace, turn.step.state.cells.acc, rest.trace, LastAccumulator(rest), id);
        }
      }
    }
  }

  lemma StandingHolds(w: World, s: State, id: Id)
    ensures Holds(w, s.cells.acc, Shutdown(s).trace, LastAccumulator(Shutdown(s)), id)
    ensures Holds(w, s.cells.acc, [], s.cells.acc, id)
  {
    NoResults(w, Shutdown(s).trace, id);
  }

  /** A run that completes ends with its shutdown and an empty accumulator. */
  lemma {:induction false} CompletedIsCleared(w: World, f: Workflow, s: State, schedule: seq<Flags>)
    requires Fits(f, s)
    ensures var r := RunFrom(w, f, s, schedule);
            r.outcome.Completed? ==>
              && r.trace != [] && r.trace[|r.trace|-1].WorkflowShutdown?
              && r.final.cells.acc == map[] && r.final.next == None
    decreases |schedule|
  {
    hide TakeTurn;
    var action := NextAction(f, s);
    if action.Some? && schedule != [] {
      TurnNotCompleted(w, f, s, action.value, schedule[0]);
      var turn := TakeTurn(w, f, s, action.value, schedule[0]);
      if turn.Went? {
        CompletedIsCleared(w, f, turn.step.state, schedule[1..]);
      }
    }
  }

  // ---------------------------------------------------------------- what a run starts with

  /** A new execution starts from its own variables over the workflow's, with zeroes for the branches only if no user
      asked for it; a resumed one from the workflow's variables over what was stored. The counters are zero. */
  lemma StartsWith(f: Workflow, start: Id, args: seq<Argument>, user: string, overrides: map<Id, Value>,
                   stored: Accumulator, execution: nat, id: Id)
    ensures var s := NewState(f, start, args, user, overrides);
            var acc := s.cells.acc;
            && s.next == Some(start) && s.args == args && !s.resume && s.execution == 0
            && |s.cells.counters| == |f.branches| && (forall i | 0 <= i < |f.branches| :: s.cells.counters[i] == 0)
            && (id in acc <==> id in overrides || id in f.environment || (user == "" && id in BranchIds(f)))
            && (id in acc ==> acc[id] == if id in overrides then overrides[id]
                                         else if user == "" && id in BranchIds(f) then Num(0.0) else f.environment[id])
    ensures var s := ResumedState(f, start, args, stored, execution);
            var acc := s.cells.acc;
            && s.next == Some(start) && s.args == args && s.resume && s.execution == execution
            && |s.cells.counters| == |f.branches| && (forall i | 0 <= i < |f.branches| :: s.cells.counters[i] == 0)
            && (id in acc <==> id in stored || id in f.environment)
            && (id in acc ==> acc[id] == if id in f.environment then f.environment[id] else stored[id])
  {
    assert ZeroedCounters(f).Keys == BranchIds(f);
  }
}
