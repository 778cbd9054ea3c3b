/** The protocol with the engine inside: each live run carries the engine's state, moves by the engine's turns,
    and reports to the status tables by its events alone. */
module WholeSystem {
  import opened Json
  import opened Elements
  import opened Engine
  import opened Statuses
  import opened Traces
  import opened Commands
  import opened Protocol
  import Pausing
  import opened Safety

  /** The workflows of the database, and which of them are valid. */
  datatype Flows = Flows(all: map<Id, Workflow>, valid: set<Id>)

  function DatabaseOf(flows: Flows): Database
  {
    Database(map id | id in flows.all :: flows.all[id].start, flows.valid)
  }

  /** The protocol's view; the engine's state of every live run; the records that events are applied to; what
      each execution's runs left behind: their accumulator, and how many action execution ids they drew; and the
      executions of which a run raised inside an action. */
  datatype Whole = Whole(system: System, states: map<Request, State>, records: map<Id, Record>,
                         stored: map<Id, Accumulator>, drawn: map<Id, nat>, raised: set<Id>)

  const BEGINNING := Whole(INITIAL, map[], map[], map[], map[], {})

  /** A worker begins a request with the arguments, user and variables that it carries; a live run takes a turn;
      everything else is a step of the protocol. */
  datatype WholeStep =
    | Other(step: Step)
    | BeginRun(request: Request, args: seq<Argument>, user: string, overrides: map<Id, Value>)
    | Turn(request: Request)

  function Stored(x: Whole, e: Id): Accumulator
  {
    if e in x.stored then x.stored[e] else map[]
  }

  function Drawn(x: Whole, e: Id): nat
  {
    if e in x.drawn then x.drawn[e] else 0
  }

  function FlagsOf(run: LiveRun): Flags
  {
    Flags(run.pause, run.abort)
  }

  /** What the server's own commands do to the records. */
  function Recorded(flows: Flows, x: Whole, step: Step): map<Id, Record>
  {
    var db, srv := DatabaseOf(flows), x.system.server;
    match step
    case Execute(e, workflow, _) =>
      if e !in srv.rows && workflow in db.starts then x.records[e := Record(StatusPending, [], None)] else x.records
    case Resume(e) =>
      if Resumable(db, srv, e) && e in x.records then x.records[e := x.records[e].(status := StatusPending)]
          else x.records
    case Trigger(e, holds) =>
      if Triggerable(db, srv, e) && holds
          && e in x.records then x.records[e := x.records[e].(status := StatusPending)] else x.records
    case Abort(e) =>
      if Stoppable(srv, e) && e in x.records then x.records[e := Apply(x.records[e], WorkflowAborted)] else x.records
    case _ => x.records
  }

  function StartState(flows: Flows, x: Whole, step: WholeStep): State
    requires step.BeginRun? && step.request.workflow in flows.all
  {
    var r := step.request;
    var f := flows.all[r.workflow];
    var at := if r.start.Some? then r.start.value else f.start;
    if r.resume then ResumedState(f, at, step.args, Stored(x, r.execution), Drawn(x, r.execution))
    else NewState(f, at, step.args, step.user, step.overrides).(execution := Drawn(x, r.execution))
  }

  /** What a live run does next: the engine's turn, or its shutdown when no action is next. */
  function TurnOf(w: World, f: Workflow, s: State, flags: Flags): Engine.Turn
    requires Fits(f, s)
  {
    match NextAction(f, s)
    case None => Ended(Shutdown(s))
    case Some(a) => TakeTurn(w, f, s, a, flags)
  }

  /** Whether the live run of a request can take a turn; it always can in a state that is reached. */
  ghost predicate Ready(flows: Flows, x: Whole, r: Request)
  {
    && r in x.system.live && r in x.states && r.workflow in flows.all && Fits(flows.all[r.workflow], x.states[r])
    && r.execution in x.records
  }

  ghost function TurnNow(w: World, flows: Flows, x: Whole, r: Request): Engine.Turn
    requires Ready(flows, x, r)
  {
    TurnOf(w, flows.all[r.workflow], x.states[r], FlagsOf(x.system.live[r]))
  }

  /** A live run is over, and the system has taken the step that goes with it. */
  function Finished(x: Whole, system: System, r: Request, run: Run): Whole
    requires r.execution in x.records
  {
    var e := r.execution;
    Whole(system, x.states - {r}, x.records[e := ApplyAll(x.records[e], run.trace)], x.stored[e := run.final.cells.acc],
          x.drawn[e := run.final.execution], if RaisedInside(run.outcome) then x.raised + {e} else x.raised)
  }

  /** The step of the protocol that a step of the whole amounts to. */
  ghost function AsStep(w: World, flows: Flows, x: Whole, step: WholeStep): Option<Step>
  {
    match step
    case Other(p) => if p.Begin? || p.Advance? || p.Stop? then None else Some(p)
    case BeginRun(r, _, _, _) => Some(Begin(r))
    case Turn(r) =>
      if !Ready(flows, x, r) then None
      else match TurnNow(w, flows, x, r)
        case Ended(run) => if run.outcome.Running? then None else Some(Stop(r, EndingOf(run.outcome)))
        case Went(step) => Some(Step.Advance(r,
                                             if step.state.next.Some? then step.state.next.value
                                                 else x.system.live[r].at))
  }

  ghost function WholeNext(w: World, flows: Flows, x: Whole, step: WholeStep): Whole
  {
    var p := AsStep(w, flows, x, step);
    if p.None? then x
    else
      var system := Next(DatabaseOf(flows), x.system, p.value);
      match step
      case Other(q) => x.(system := system, records := Recorded(flows, x, q))
      case BeginRun(r, _, _, _) =>
        if r in x.system.accepted && Runs(DatabaseOf(flows), x.system, r) && r.execution in x.records then
          x.(system := system, states := x.states[r := StartState(flows, x, step)],
             records := x.records[r.execution := Apply(x.records[r.execution], WorkflowExecutionStart)])
        else x.(system := system)
      case Turn(r) =>
        var e := r.execution;
        match TurnNow(w, flows, x, r)
        case Ended(run) => Finished(x, system, r, run)
        case Went(step) =>
          x.(system := system, states := x.states[r := step.state],
             records := x.records[e := ApplyAll(x.records[e], step.trace)])
  }

  ghost function WholeReach(w: World, flows: Flows, steps: seq<WholeStep>): Whole
  {
    if steps == [] then BEGINNING
    else WholeNext(w, flows, WholeReach(w, flows, steps[..|steps|-1]), steps[|steps|-1])
  }

  /** The steps of the protocol that a run of the whole takes. */
  ghost function Projected(w: World, flows: Flows, steps: seq<WholeStep>): seq<Step>
  {
    if steps == [] then []
    else
      var before := steps[..|steps|-1];
      var p := AsStep(w, flows, WholeReach(w, flows, before), steps[|steps|-1]);
      Projected(w, flows, before) + if p.Some? then [p.value] else []
  }

  lemma {:induction false} WholeIsProtocol(w: World, flows: Flows, steps: seq<WholeStep>)
    ensures WholeReach(w, flows, steps).system == Reach(DatabaseOf(flows), Projected(w, flows, steps))
  {
    hide Next, AsStep, Recorded, StartState, TurnNow;
    if steps != [] {
      var before := steps[..|steps|-1];
      WholeIsProtocol(w, flows, before);
      var p := AsStep(w, flows, WholeReach(w, flows, before), steps[|steps|-1]);
      if p.Some? {
        assert (Projected(w, flows, before) + [p.value])[..|Projected(w, flows, before)|] ==
               Projected(w, flows, before);
      } else {
        assert Projected(w, flows, steps) == Projected(w, flows, before);
      }
    }
  }

  // ---------------------------------------------------------------- what one turn does to a record

  /** What the record of an execution is after a turn of its live run. */
  ghost predicate Delivered(rec: Record, after: Record, turn: Engine.Turn)
  {
    match turn
    case Went(step) =>
      after.status == StatusRunning && after.saved == rec.saved && Settled(after.actions, step.state.execution)
    case Ended(run) =>
      && Leaves(after.actions, run.outcome, run.final.execution)
      && match run.outcome
         case Paused(at) => after.status == StatusPaused && after.saved == Some(at)
         case AwaitingData(at) => after.status == StatusAwaitingData && after.saved == Some(at)
         case Aborted(_) => after.status == StatusAborted && after.saved == None
         case Completed => after.status == StatusCompleted && after.saved == None
         case Abandoned(_) => after.status == StatusRunning && after.saved == rec.saved
         case Failed(_, _) => after.status == StatusRunning && after.saved == rec.saved
         case Running => false
  }

  lemma {:induction false} SavedStays(r: Record, p: Phase, trace: seq<Event>)
    requires AcceptAll(Some(p), trace).Some? && !AcceptAll(Some(p), trace).value.Over?
    ensures ApplyAll(r, trace).saved == r.saved
    decreases |trace|
  {
    if trace != [] {
      var next := Accept(p, trace[0]);
      if next.Some? {
        OverIsLast(next.value, trace[1..]);
        SavedStays(Apply(r, trace[0]), next.value, trace[1..]);
      }
    }
  }

  lemma OverIsLast(p: Phase, trace: seq<Event>)
    requires AcceptAll(Some(p), trace).Some? && !AcceptAll(Some(p), trace).value.Over?
    ensures !p.Over?
  {
  }

  lemma TurnIsDelivered(w: World, f: Workflow, s: State, flags: Flags, rec: Record)
    requires Fits(f, s) && rec.status == StatusRunning && Settled(rec.actions, s.execution)
    ensures var turn := TurnOf(w, f, s, flags);
            Delivered(rec, ApplyAll(rec, if turn.Ended? then turn.run.trace else turn.step.trace), turn)
  {
    var turn := TurnOf(w, f, s, flags);
    var trace := if turn.Ended? then turn.run.trace else turn.step.trace;
    var start := Between(s.execution);
    LegalTurn(w, f, s, flags);
    assert Matches(rec, start);
    hide TakeTurn, TurnOf, Accept, Apply, Matches, Closes, Settled, Delivered;
    ApplyAllMatches(rec, start, trace);
    var p := AcceptAll(Some(start), trace).value;
    if !p.Over? {
      SavedStays(rec, start, trace);
    }
    match turn {
      case Went(step) => BetweenIsDelivered(rec, ApplyAll(rec, trace), step);
      case Ended(run) => ClosedIsDelivered(rec, ApplyAll(rec, trace), p, run);
    }
  }

  lemma BetweenIsDelivered(rec: Record, after: Record, step: Engine.Advance)
    requires Matches(after, Between(step.state.execution)) && after.saved == rec.saved
    ensures Delivered(rec, after, Went(step))
  {
  }

  lemma ClosedIsDelivered(rec: Record, after: Record, p: Phase, run: Run)
    requires Matches(after, p) && Closes(p, run.outcome, run.final.execution) && !run.outcome.Running?
    requires !p.Over? ==> after.saved == rec.saved
    ensures Delivered(rec, after, Ended(run))
  {
    hide Leaves;
    ClosedLeaves(after, p, run.outcome, run.final.execution);
  }

  lemma LegalTurn(w: World, f: Workflow, s: State, flags: Flags)
    requires Fits(f, s)
    ensures match TurnOf(w, f, s, flags)
            case Ended(run) =>
              var p := AcceptAll(Some(Between(s.execution)), run.trace);
              p.Some? && Closes(p.value, run.outcome, run.final.execution) && !run.outcome.Running?
            case Went(step) => AcceptAll(Some(Between(s.execution)), step.trace) == Some(Between(step.state.execution))
  {
    hide TakeTurn, Accept, Closes;
    if NextAction(f, s).Some? {
      TurnIsLegal(w, f, s, NextAction(f, s).value, flags);
      Pausing.TurnNotRunning(w, f, s, NextAction(f, s).value, flags);
    } else {
      ShutdownIsLegal(s);
    }
  }

  // ---------------------------------------------------------------- the invariant

  ghost predicate RecordTied(x: Whole, e: Id)
  {
    && (e in x.records <==> e in x.system.server.rows)
    && (e in x.system.server.saved ==> e in x.system.server.rows)
    && (e in x.records ==>
          && x.records[e].status == x.system.server.rows[e].status
          && x.records[e].saved == if e in x.system.server.saved then Some(x.system.server.saved[e]) else None)
  }

  /** A live run carries a state of the engine at the boundary that the protocol knows. */
  ghost predicate RunTied(flows: Flows, x: Whole, r: Request)
  {
    r in x.system.live ==>
      && r in x.states && r.workflow in flows.all && Fits(flows.all[r.workflow], x.states[r])
      && (x.states[r].next.Some? ==> x.states[r].next == Some(x.system.live[r].at))
      && r.execution in x.records && Settled(x.records[r.execution].actions, x.states[r].execution)
  }

  /** The last row is executing, and no other. */
  ghost predicate LastOpen(rows: seq<ActionRow>)
  {
    rows != [] && Executing(rows) == {|rows| - 1}
  }

  /** While no run is live no action is executing, except the one that a run raised inside of. */
  ghost predicate ActionsTied(x: Whole, e: Id)
  {
    && (e in x.raised ==> e in x.system.crashed && e in x.records)
    && (e in x.records && (forall r :: r in x.system.live ==> r.execution != e) ==>
          if e in x.raised then LastOpen(x.records[e].actions) else Settled(x.records[e].actions, Drawn(x, e)))
  }

  ghost predicate Tied(flows: Flows, x: Whole)
  {
    && (forall r :: r in x.states ==> r in x.system.live)
    && (forall e :: RecordTied(x, e) && ActionsTied(x, e))
    && (forall r :: RunTied(flows, x, r))
  }

  /** The two states agree on one execution's row, saved state, record, live runs and draws. */
  ghost predicate Alone(x: Whole, y: Whole, e: Id)
  {
    && (e in y.records <==> e in x.records) && (e in x.records ==> y.records[e] == x.records[e])
    && (e in y.system.server.rows <==> e in x.system.server.rows)
    && (e in x.system.server.rows ==> y.system.server.rows[e].status == x.system.server.rows[e].status)
    && (e in y.system.server.saved <==> e in x.system.server.saved)
    && (e in x.system.server.saved ==> y.system.server.saved[e] == x.system.server.saved[e])
    && Drawn(y, e) == Drawn(x, e)
    && (e in y.raised <==> e in x.raised) && (e in y.system.crashed <==> e in x.system.crashed)
    && (forall r: Request :: r.execution == e ==>
          && (r in y.system.live <==> r in x.system.live)
              && (r in x.system.live ==> y.system.live[r].at == x.system.live[r].at)
          && (r in y.states <==> r in x.states) && (r in x.states ==> y.states[r] == x.states[r]))
  }

  /** A step about one execution keeps the ties if it keeps that one's and leaves the others alone. */
  lemma OthersStayTied(flows: Flows, x: Whole, y: Whole, e: Id)
    requires Tied(flows, x) && forall d :: d != e ==> Alone(x, y, d)
    requires RecordTied(y, e) && ActionsTied(y, e)
    requires forall r: Request :: r.execution == e ==> RunTied(flows, y, r) && (r in y.states ==> r in y.system.live)
    ensures Tied(flows, y)
  {
    hide Settled, Drawn;
    forall d ensures RecordTied(y, d) && ActionsTied(y, d) {
      if d != e {
        assert RecordTied(x, d) && ActionsTied(x, d) && Alone(x, y, d);
      }
    }
    forall r ensures RunTied(flows, y, r) && (r in y.states ==> r in y.system.live) {
      if r.execution != e {
        assert RunTied(flows, x, r) && Alone(x, y, r.execution) && RecordTied(x, r.execution);
      }
    }
  }

  lemma InitialIsTied(flows: Flows)
    ensures Tied(flows, BEGINNING)
  {
  }

  /** The run of an execution that is running is the only one, and nothing waits beside it. */
  lemma OnlyLive(x: Whole, r: Request)
    requires Safe(x.system) && r in x.system.live
    ensures HasStatus(x.system.server, r.execution, StatusRunning)
    ensures forall q: Request :: q in x.system.live && q.execution == r.execution ==> q == r
    ensures r.execution !in x.system.crashed
  {
    assert SafeFor(x.system, r.execution) && Token(x.system, r);
  }

  lemma EndedIsTied(flows: Flows, x: Whole, r: Request, run: Run)
    requires Tied(flows, x) && Ready(flows, x, r) && HasStatus(x.system.server, r.execution, StatusRunning)
    requires forall q: Request :: q in x.system.live && q.execution == r.execution ==> q == r
    requires r.execution !in x.system.crashed
    requires Delivered(x.records[r.execution], ApplyAll(x.records[r.execution], run.trace), Ended(run))
    requires match run.outcome
             case Paused(at) => at == x.system.live[r].at
             case AwaitingData(at) => at == x.system.live[r].at
             case _ => true
    ensures Tied(flows, Finished(x, EndRun(x.system, r, EndingOf(run.outcome)), r, run))
  {
    var e := r.execution;
    var y := Finished(x, EndRun(x.system, r, EndingOf(run.outcome)), r, run);
    assert ActionsTied(x, e) && RecordTied(x, e);
    FinishedElsewhere(x, r, run);
    FinishedRecord(x, r, run);
    FinishedActions(x, r, run);
    hide *;
    OthersStayTied(flows, x, y, e);
  }

  lemma FinishedElsewhere(x: Whole, r: Request, run: Run)
    requires r in x.system.live && r.execution in x.system.server.rows && r.execution in x.records
    requires !run.outcome.Running?
    ensures forall d :: d != r.execution ==>
            Alone(x, Finished(x, EndRun(x.system, r, EndingOf(run.outcome)), r, run), d)
  {
    hide ApplyAll, RaisedInside;
  }

  lemma FinishedRecord(x: Whole, r: Request, run: Run)
    requires r in x.system.live && r.execution in x.records && HasStatus(x.system.server, r.execution, StatusRunning)
    requires RecordTied(x, r.execution)
    requires Delivered(x.records[r.execution], ApplyAll(x.records[r.execution], run.trace), Ended(run))
    requires run.outcome.Paused? || run.outcome.AwaitingData? ==> run.outcome.at == x.system.live[r].at
    ensures RecordTied(Finished(x, EndRun(x.system, r, EndingOf(run.outcome)), r, run), r.execution)
  {
    hide ApplyAll, Leaves;
  }

  lemma FinishedActions(x: Whole, r: Request, run: Run)
    requires r in x.system.live && r.execution in x.records && r.execution in x.system.server.rows
    requires forall q: Request :: q in x.system.live && q.execution == r.execution ==> q == r
    requires ActionsTied(x, r.execution) && r.execution !in x.system.crashed
    requires Delivered(x.records[r.execution], ApplyAll(x.records[r.execution], run.trace), Ended(run))
    ensures var y := Finished(x, EndRun(x.system, r, EndingOf(run.outcome)), r, run);
            && ActionsTied(y, r.execution)
            && (forall q :: q in y.states ==> q in x.states && q != r)
            && forall q: Request :: q.execution == r.execution ==> q !in y.system.live
  {
    hide ApplyAll, Leaves, Settled, Executing;
    var rows := ApplyAll(x.records[r.execution], run.trace).actions;
    LeavesExecuting(rows, run.outcome, run.final.execution);
    if !RaisedInside(run.outcome) {
      LeavesSettled(rows, run.outcome, run.final.execution);
    }
  }

  lemma LeavesSettled(rows: seq<ActionRow>, o: Outcome, n: nat)
    requires Leaves(rows, o, n) && !RaisedInside(o)
    ensures Settled(rows, n)
  {
  }

  lemma WentIsTied(flows: Flows, x: Whole, r: Request, step: Engine.Advance, rec: Record, to: Id)
    requires Tied(flows, x) && Ready(flows, x, r) && Fits(flows.all[r.workflow], step.state)
    requires HasStatus(x.system.server, r.execution, StatusRunning)
    requires forall q: Request :: q in x.system.live && q.execution == r.execution ==> q == r
    requires Delivered(x.records[r.execution], rec, Went(step))
             && (step.state.next.Some? ==> step.state.next.value == to)
    ensures Tied(flows, x.(system := x.system.(live := x.system.live[r := x.system.live[r].(at := to)]),
                           states := x.states[r := step.state], records := x.records[r.execution := rec]))
  {
    hide Settled;
    var e := r.execution;
    var y := x.(system := x.system.(live := x.system.live[r := x.system.live[r].(at := to)]),
                states := x.states[r := step.state], records := x.records[e := rec]);
    assert RecordTied(x, e);
    assert r in y.system.live;
    assert forall d :: d != e ==> Alone(x, y, d);
    assert RecordTied(y, e) && ActionsTied(y, e);
    hide RecordTied, ActionsTied, Alone;
    OthersStayTied(flows, x, y, e);
  }

  lemma TurnIsTied(w: World, flows: Flows, x: Whole, r: Request)
    requires Tied(flows, x) && Safe(x.system) && Ready(flows, x, r)
    ensures Tied(flows, WholeNext(w, flows, x, Turn(r)))
  {
    var f, s, flags, at := flows.all[r.workflow], x.states[r], FlagsOf(x.system.live[r]), x.system.live[r].at;
    assert RunTied(flows, x, r) && RecordTied(x, r.execution);
    OnlyLive(x, r);
    TurnKeepsPlace(w, f, s, flags, at);
    TurnIsDelivered(w, f, s, flags, x.records[r.execution]);
    hide TurnOf, ApplyAll, Settled, Safe, Tied, Delivered, RunTied, RecordTied, EndRun, WholeNext, Ready, Finished;
    var turn := TurnOf(w, f, s, flags);
    match turn {
      case Ended(run) =>
        TurnEnds(w, flows, x, r, run);
        EndedIsTied(flows, x, r, run);
      case Went(step) =>
        var to := if step.state.next.Some? then step.state.next.value else at;
        TurnGoes(w, flows, x, r, step, to);
        WentIsTied(flows, x, r, step, ApplyAll(x.records[r.execution], step.trace), to);
    }
  }

  lemma TurnEnds(w: World, flows: Flows, x: Whole, r: Request, run: Run)
    requires Ready(flows, x, r) && TurnNow(w, flows, x, r) == Ended(run) && !run.outcome.Running?
    requires r.execution in x.system.server.rows
    requires run.outcome.Paused? ==> x.system.live[r].pause
    requires run.outcome.Aborted? ==> x.system.live[r].abort && !x.system.live[r].pause
    ensures WholeNext(w, flows, x, Turn(r)) == Finished(x, EndRun(x.system, r, EndingOf(run.outcome)), r, run)
  {
    hide TurnNow, ApplyAll, EndRun, Finished;
  }

  lemma TurnGoes(w: World, flows: Flows, x: Whole, r: Request, step: Engine.Advance, to: Id)
    requires Ready(flows, x, r) && TurnNow(w, flows, x, r) == Went(step)
    requires to == if step.state.next.Some? then step.state.next.value else x.system.live[r].at
    requires !x.system.live[r].pause && !x.system.live[r].abort
    ensures WholeNext(w, flows, x, Turn(r)) ==
            x.(system := x.system.(live := x.system.live[r := x.system.live[r].(at := to)]),
               states := x.states[r := step.state], records :=
                   x.records[r.execution := ApplyAll(x.records[r.execution], step.trace)])
  {
    hide TurnNow, ApplyAll;
  }

  /** A turn stops at the boundary its run stands at, obeying its flags. */
  lemma TurnKeepsPlace(w: World, f: Workflow, s: State, flags: Flags, at: Id)
    requires Fits(f, s) && (s.next.Some? ==> s.next.value == at)
    ensures match TurnOf(w, f, s, flags)
            case Went(step) => Fits(f, step.state) && !flags.pause && !flags.abort
            case Ended(run) => !run.outcome.Running? && match run.outcome
              case Paused(a) => a == at && flags.pause
              case Aborted(a) => flags.abort && !flags.pause
              case AwaitingData(a) => a == at
              case _ => true
  {
    hide Engine.Execute, After;
  }

  /** A worker has started the run of a request in the given state. */
  function Launched(x: Whole, r: Request, at: Id, s: State): Whole
    requires r.execution in x.system.server.rows && r.execution in x.records
  {
    var e := r.execution;
    x.(system := x.system.(server := WithStatus(x.system.server, e, StatusRunning), accepted := x.system.accepted - {r},
                           live := x.system.live[r := LiveRun(at, false, false)]),
       states := x.states[r := s], records := x.records[e := x.records[e].(status := StatusRunning)])
  }

  lemma LaunchedElsewhere(x: Whole, r: Request, at: Id, s: State)
    requires r.execution in x.system.server.rows && r.execution in x.records
    ensures forall d :: d != r.execution ==> Alone(x, Launched(x, r, at, s), d)
    ensures r in Launched(x, r, at, s).system.live
  {
  }

  lemma StartedIsTied(flows: Flows, x: Whole, r: Request, at: Id, s: State)
    requires Tied(flows, x) && r.workflow in flows.all && Fits(flows.all[r.workflow], s) && s.next == Some(at)
    requires s.execution == Drawn(x, r.execution) && r.execution in x.system.server.rows
    requires forall q: Request :: q.execution == r.execution ==> q !in x.system.live
    requires r.execution !in x.system.crashed
    ensures r.execution in x.records
    ensures Tied(flows, Launched(x, r, at, s))
  {
    hide Settled;
    var e := r.execution;
    assert RecordTied(x, e) && ActionsTied(x, e);
    LaunchedElsewhere(x, r, at, s);
    hide Alone;
    var y := Launched(x, r, at, s);
    assert RecordTied(y, e) && ActionsTied(y, e);
    hide RecordTied, ActionsTied, Drawn;
    OthersStayTied(flows, x, y, e);
  }

  /** Nothing the ties speak of has changed. */
  lemma UnchangedIsTied(flows: Flows, x: Whole, y: Whole)
    requires Tied(flows, x) && forall d :: Alone(x, y, d)
    ensures Tied(flows, y)
  {
    hide Settled, Drawn;
    forall d ensures RecordTied(y, d) && ActionsTied(y, d) {
      assert RecordTied(x, d) && ActionsTied(x, d) && Alone(x, y, d);
    }
    forall r ensures RunTied(flows, y, r) && (r in y.states ==> r in y.system.live) {
      assert RunTied(flows, x, r) && Alone(x, y, r.execution) && RecordTied(x, r.execution);
    }
  }

  lemma NothingLive(x: Whole, r: Request)
    requires Safe(x.system) && r in x.system.accepted && r !in x.system.live
    ensures forall q: Request :: q.execution == r.execution ==> q !in x.system.live
    ensures r.execution !in x.system.crashed
  {
    assert SafeFor(x.system, r.execution) && Waiting(x.system, r) && Token(x.system, r);
  }

  lemma RunStarts(w: World, flows: Flows, x: Whole, step: WholeStep)
    requires step.BeginRun? && step.request in x.system.accepted && step.request.execution in x.records
    requires Runs(DatabaseOf(flows), x.system, step.request)
    ensures var r := step.request;
            var at := if r.start.Some? then r.start.value else flows.all[r.workflow].start;
            r.execution in x.system.server.rows
            && WholeNext(w, flows, x, step) == Launched(x, r, at, StartState(flows, x, step))
  {
    hide StartState;
  }

  lemma StartStateFits(flows: Flows, x: Whole, step: WholeStep)
    requires step.BeginRun? && step.request.workflow in flows.all
    ensures var r := step.request;
            var s := StartState(flows, x, step);
            && Fits(flows.all[r.workflow], s) && s.execution == Drawn(x, r.execution)
            && s.next == Some(if r.start.Some? then r.start.value else flows.all[r.workflow].start)
  {
    hide Drawn, Stored;
  }

  lemma Drops(w: World, flows: Flows, x: Whole, step: WholeStep)
    requires step.BeginRun? && !(step.request in x.system.accepted && Runs(DatabaseOf(flows), x.system, step.request))
    ensures forall d :: Alone(x, WholeNext(w, flows, x, step), d)
  {
    hide StartState;
    var y := WholeNext(w, flows, x, step);
    assert y == x.(system := y.system) && y.system.server == x.system.server && y.system.live == x.system.live;
    hide WholeNext;
  }

  lemma BeginIsTied(w: World, flows: Flows, x: Whole, step: WholeStep)
    requires Tied(flows, x) && Safe(x.system) && Conserved(x.system) && step.BeginRun?
    ensures Tied(flows, WholeNext(w, flows, x, step))
  {
    var r := step.request;
    assert RecordTied(x, r.execution);
    if r in x.system.accepted && Runs(DatabaseOf(flows), x.system, r) {
      NothingLive(x, r);
      StartStateFits(flows, x, step);
      hide Tied, Safe, Conserved, Drawn, StartState, WholeNext;
      RunStarts(w, flows, x, step);
      StartedIsTied(flows, x, r, if r.start.Some? then r.start.value else flows.all[r.workflow].start,
                    StartState(flows, x, step));
    } else {
      hide Settled, Safe, Tied, RecordTied, StartState, WholeNext, Alone;
      Drops(w, flows, x, step);
      UnchangedIsTied(flows, x, WholeNext(w, flows, x, step));
    }
  }

  /** A command of the server that gives one execution a new status, and does not touch a live run. */
  lemma CommandIsTied(flows: Flows, x: Whole, e: Id, srv: Server, rec: Record)
    requires Tied(flows, x) && e in srv.rows && srv.rows[e].status == rec.status
    requires forall q: Request :: q.execution == e ==> q !in x.system.live
    requires forall d :: d != e ==>
             (d in srv.rows <==> d in x.system.server.rows)
                 && (d in srv.rows ==> srv.rows[d] == x.system.server.rows[d])
    requires forall d :: d != e ==>
             (d in srv.saved <==> d in x.system.server.saved)
                 && (d in srv.saved ==> srv.saved[d] == x.system.server.saved[d])
    requires rec.saved == if e in srv.saved then Some(srv.saved[e]) else None
    requires Settled(rec.actions, Drawn(x, e)) && e !in x.raised
    ensures Tied(flows, x.(system := Command(x.system, srv), records := x.records[e := rec]))
  {
    hide Settled;
    var y := x.(system := Command(x.system, srv), records := x.records[e := rec]);
    assert forall d :: d != e ==> Alone(x, y, d);
    assert RecordTied(y, e) && ActionsTied(y, e);
    assert forall r: Request :: r.execution == e ==> r !in y.states;
    hide RecordTied, ActionsTied, Alone, Drawn;
    OthersStayTied(flows, x, y, e);
  }

  /** An execution that is not running has no live run, and its actions are settled. */
  lemma NotRunning(flows: Flows, x: Whole, e: Id)
    requires Tied(flows, x) && Safe(x.system) && !HasStatus(x.system.server, e, StatusRunning)
    ensures forall q: Request :: q.execution == e ==> q !in x.system.live
    ensures e in x.system.server.rows <==> e in x.records
    ensures RecordTied(x, e) && (e in x.records ==> Settled(x.records[e].actions, Drawn(x, e))) && e !in x.raised
  {
    hide Settled, Drawn;
    assert SafeFor(x.system, e) && RecordTied(x, e) && ActionsTied(x, e);
  }

  lemma AbortingSettles(rows: seq<ActionRow>, n: nat)
    requires Settled(rows, n)
    ensures Settled(Aborting(rows), n)
  {
  }

  lemma ExecuteIsTied(flows: Flows, x: Whole, e: Id, workflow: Id, start: Option<Id>)
    requires Tied(flows, x) && Safe(x.system) && e !in x.system.server.rows && workflow in flows.all
    ensures Tied(flows, x.(system :=
                           Command(x.system, OnExecute(DatabaseOf(flows), x.system.server, e, workflow, start, false)),
                           records := x.records[e := Record(StatusPending, [], None)]))
  {
    NotRunning(flows, x, e);
    NothingSettled(Drawn(x, e));
    hide Settled, Safe, Tied, Drawn;
    CommandIsTied(flows, x, e, OnExecute(DatabaseOf(flows), x.system.server, e, workflow, start, false),
                  Record(StatusPending, [], None));
  }

  lemma RequeueIsTied(flows: Flows, x: Whole, e: Id, start: Option<Id>)
    requires Tied(flows, x) && Safe(x.system)
    requires HasStatus(x.system.server, e, StatusPaused) || HasStatus(x.system.server, e, StatusAwaitingData)
    ensures e in x.records
    ensures Tied(flows, x.(system :=
                           Command(x.system, Enqueue(x.system.server, e, x.system.server.rows[e].workflow, start,
                                                     true)),
                           records := x.records[e := x.records[e].(status := StatusPending)]))
  {
    NotRunning(flows, x, e);
    hide Settled, Safe, Tied, Drawn;
    CommandIsTied(flows, x, e, Enqueue(x.system.server, e, x.system.server.rows[e].workflow, start, true),
                  x.records[e].(status := StatusPending));
  }

  lemma AbortedIsTied(flows: Flows, x: Whole, e: Id)
    requires Tied(flows, x) && Safe(x.system) && Stoppable(x.system.server, e)
    ensures e in x.records
    ensures Tied(flows, x.(system := Command(x.system, OnAbort(x.system.server, e)),
                           records := x.records[e := Apply(x.records[e], WorkflowAborted)]))
  {
    NotRunning(flows, x, e);
    AbortingSettles(x.records[e].actions, Drawn(x, e));
    hide Settled, Safe, Tied, Drawn;
    CommandIsTied(flows, x, e, OnAbort(x.system.server, e), Apply(x.records[e], WorkflowAborted));
  }

  /** Messages and deliveries, taking a request, and commands that find nothing to do. */
  ghost predicate Idle(flows: Flows, x: Whole, p: Step)
  {
    var db, srv := DatabaseOf(flows), x.system.server;
    match p
    case Execute(e, workflow, _) => e in srv.rows || workflow !in db.starts
    case Resume(e) => !Resumable(db, srv, e)
    case Trigger(e, holds) => !(Triggerable(db, srv, e) && holds)
    case Abort(e) => !Stoppable(srv, e)
    case _ => !p.Begin? && !p.Advance? && !p.Stop?
  }

  lemma DeliverIsIdle(db: Database, s: System, i: nat, r: Request)
    ensures var t := Next(db, s, Deliver(i, r));
            t.server == s.server && t.crashed == s.crashed && (forall q :: q in t.live <==> q in s.live) && forall q ::
                q in s.live ==> t.live[q].at == s.live[q].at
  {
  }

  lemma SameSystem(x: Whole, y: Whole)
    requires y == x.(system := y.system)
    requires y.system.server.rows == x.system.server.rows && y.system.server.saved == x.system.server.saved
    requires y.system.crashed == x.system.crashed
    requires (forall q :: q in y.system.live <==> q in x.system.live)
             && forall q :: q in x.system.live ==> y.system.live[q].at == x.system.live[q].at
    ensures forall d :: Alone(x, y, d)
  {
  }

  lemma IdleKeeps(flows: Flows, x: Whole, p: Step)
    requires Idle(flows, x, p)
    ensures var s, t := x.system, Next(DatabaseOf(flows), x.system, p);
            && t.server.rows == s.server.rows && t.server.saved == s.server.saved && t.crashed == s.crashed
            && (forall q :: q in t.live <==> q in s.live) && forall q :: q in s.live ==> t.live[q].at == s.live[q].at
    ensures Recorded(flows, x, p) == x.records
  {
    hide Enqueue;
    match p {
      case Deliver(i, r) => DeliverIsIdle(DatabaseOf(flows), x.system, i, r);
      case _ =>
    }
  }

  lemma IdleIsTied(w: World, flows: Flows, x: Whole, p: Step)
    requires Tied(flows, x) && Idle(flows, x, p) && !p.Begin? && !p.Advance? && !p.Stop?
    ensures Tied(flows, WholeNext(w, flows, x, Other(p)))
  {
    hide Tied, Alone, Idle, Next, Recorded;
    IdleKeeps(flows, x, p);
    SameSystem(x, WholeNext(w, flows, x, Other(p)));
    UnchangedIsTied(flows, x, WholeNext(w, flows, x, Other(p)));
  }

  lemma OtherIsTied(w: World, flows: Flows, x: Whole, p: Step)
    requires Tied(flows, x) && Safe(x.system) && !p.Begin? && !p.Advance? && !p.Stop?
    ensures Tied(flows, WholeNext(w, flows, x, Other(p)))
  {
    hide Safe, Tied, Command, Enqueue, OnAbort, Apply;
    var srv := x.system.server;
    if Idle(flows, x, p) {
      IdleIsTied(w, flows, x, p);
    } else {
      match p {
        case Execute(e, workflow, start) => ExecuteIsTied(flows, x, e, workflow, start);
        case Resume(e) =>
          RequeueIsTied(flows, x, e, Some(if e in srv.saved then srv.saved[e]
                                          else flows.all[srv.rows[e].workflow].start));
        case Trigger(e, holds) => RequeueIsTied(flows, x, e, Some(srv.saved[e]));
        case Abort(e) => AbortedIsTied(flows, x, e);
        case _ =>
      }
    }
  }

  lemma NothingSettled(n: nat)
    ensures Settled([], n)
  {
  }

  lemma StepIsTied(w: World, flows: Flows, x: Whole, step: WholeStep)
    requires Tied(flows, x) && Safe(x.system) && Conserved(x.system)
    ensures Tied(flows, WholeNext(w, flows, x, step))
  {
    match step {
      case Other(p) =>
        if !p.Begin? && !p.Advance? && !p.Stop? {
          hide WholeNext, Tied;
          OtherIsTied(w, flows, x, p);
        }
      case BeginRun(_, _, _, _) =>
        hide WholeNext, Tied;
        BeginIsTied(w, flows, x, step);
      case Turn(r) =>
        if Ready(flows, x, r) {
          hide WholeNext, Tied;
          TurnIsTied(w, flows, x, r);
        }
    }
  }

  /** In every run of the whole system the protocol's view is a reachable state of the protocol; every live run
      carries an engine state that stands where the protocol says; and the records, written by events alone, have
      the status and the saved state that the protocol has. */
  lemma {:induction false} WholeIsTied(w: World, flows: Flows, steps: seq<WholeStep>)
    ensures WholeReach(w, flows, steps).system == Reach(DatabaseOf(flows), Projected(w, flows, steps))
    ensures Tied(flows, WholeReach(w, flows, steps))
  {
    hide WholeNext, Tied, Reach;
    WholeIsProtocol(w, flows, steps);
    if steps == [] {
      InitialIsTied(flows);
    } else {
      var before := steps[..|steps|-1];
      WholeIsTied(w, flows, before);
      ReachableIsSafe(DatabaseOf(flows), Projected(w, flows, before));
      StepIsTied(w, flows, WholeReach(w, flows, before), steps[|steps|-1]);
    }
  }

  /** What the ties give for one execution: its record has its status and saved state; a live run can always take
      its turn and stands at the action the protocol has; and no action status is executing between turns, except
      the last of an execution whose run raised inside that action, which has no live run any more. */
  ghost predicate Accounted(flows: Flows, x: Whole, e: Id)
  {
    && (e in x.records <==> e in x.system.server.rows)
    && (e in x.records ==>
          && x.records[e].status == x.system.server.rows[e].status
          && x.records[e].saved == (if e in x.system.server.saved then Some(x.system.server.saved[e]) else None)
          && if e in x.raised then LastOpen(x.records[e].actions) else Executing(x.records[e].actions) == {})
    && (e in x.raised ==> e in x.records && x.records[e].status == StatusRunning)
    && (forall r :: r in x.system.live && r.execution == e ==>
          && Ready(flows, x, r) && x.records[e].status == StatusRunning && e !in x.raised
          && (x.states[r].next.Some? ==> x.states[r].next == Some(x.system.live[r].at)))
  }

  lemma SettledIsNotExecuting(rows: seq<ActionRow>, n: nat)
    requires Settled(rows, n)
    ensures Executing(rows) == {}
  {
  }

  lemma RowsAreSettled(flows: Flows, x: Whole, e: Id)
    requires Tied(flows, x) && e in x.records && e !in x.raised
    ensures Executing(x.records[e].actions) == {}
  {
    hide Settled, Executing;
    if r :| r in x.system.live && r.execution == e {
      assert RunTied(flows, x, r);
      SettledIsNotExecuting(x.records[e].actions, x.states[r].execution);
    } else {
      assert ActionsTied(x, e);
      SettledIsNotExecuting(x.records[e].actions, Drawn(x, e));
    }
  }

  /** An execution of which a run raised has no live run any more. */
  lemma RaisedIsOver(flows: Flows, x: Whole, e: Id)
    requires Tied(flows, x) && Safe(x.system) && e in x.raised
    ensures e in x.records && HasStatus(x.system.server, e, StatusRunning) && LastOpen(x.records[e].actions)
    ensures forall r :: r in x.system.live ==> r.execution != e
  {
    hide LastOpen;
    assert ActionsTied(x, e) && SafeFor(x.system, e);
  }

  lemma TiedIsFaithful(flows: Flows, x: Whole, e: Id)
    requires Tied(flows, x) && Safe(x.system)
    ensures Accounted(flows, x, e)
  {
    assert RecordTied(x, e);
    forall r | r in x.system.live && r.execution == e
      ensures Ready(flows, x, r) && HasStatus(x.system.server, e, StatusRunning)
      ensures x.states[r].next.Some? ==> x.states[r].next == Some(x.system.live[r].at)
    {
      hide Settled;
      assert RunTied(flows, x, r);
      OnlyLive(x, r);
    }
    hide LastOpen, Executing, Safe, Tied;
    if e in x.raised {
      RaisedIsOver(flows, x, e);
    } else if e in x.records {
      RowsAreSettled(flows, x, e);
    }
  }

  /** In every run of the whole system every execution is faithfully recorded, and a row is left executing exactly
      by a run that raised inside that action. */
  lemma WholeIsFaithful(w: World, flows: Flows, steps: seq<WholeStep>, e: Id)
    ensures Accounted(flows, WholeReach(w, flows, steps), e)
  {
    hide WholeReach, Reach, Safe, Tied, Accounted;
    WholeIsTied(w, flows, steps);
    ReachableIsSafe(DatabaseOf(flows), Projected(w, flows, steps));
    TiedIsFaithful(flows, WholeReach(w, flows, steps), e);
  }
}
