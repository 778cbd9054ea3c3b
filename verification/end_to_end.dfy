/** The whole system watched: what every execution has done across its legs is a run cut by pauses, so that pausing
    is transparent, and loops are bounded, in every reachable state. */
module EndToEnd {
  import opened Json
  import opened Elements
  import opened References
  import opened Branches
  import opened Engine
  import opened Traces
  import opened Statuses
  import opened Commands
  import opened Protocol
  import opened Pausing
  import opened Safety
  import opened WholeSystem
  import Origins
  import Raising
  import opened Termination

  // ---------------------------------------------------------------- cut runs, one turn at a time

  /** The cuts of closed legs, then of a leg that has taken `turns` and goes on as `tail` says. */
  function Extend(legs: seq<nat>, turns: nat, tail: seq<nat>): (cuts: seq<nat>)
    requires tail != []
    ensures cuts != []
  {
    legs + ([turns + tail[0]] + tail[1..])
  }

  /** What a run has done so far is the beginning of every run cut like it, the present leg going on from `turns`. */
  ghost predicate Continues(w: World, f: Workflow, first: State, legs: seq<nat>, turns: nat, r: Run)
    requires Fits(f, first) && Fits(f, r.final)
  {
    forall tail: seq<nat> | tail != [] ::
      CutRun(w, f, first, Extend(legs, turns, tail)) == Prepend(r, CutRun(w, f, r.final, tail))
  }

  lemma PrependIsAssociative(a: Run, b: Run, c: Run)
    ensures Prepend(a, Prepend(b, c)) == Prepend(Prepend(a, b), c)
  {
    assert a.trace + (b.trace + c.trace) == (a.trace + b.trace) + c.trace;
    assert a.examined + (b.examined + c.examined) == (a.examined + b.examined) + c.examined;
  }

  lemma PrependEmpty(s: State, r: Run)
    ensures Prepend(Run([], [], Running, s), r) == r
  {
  }

  lemma StartContinues(w: World, f: Workflow, s: State)
    requires Fits(f, s)
    ensures Continues(w, f, s, [], 0, Run([], [], Running, s))
  {
    hide CutRun, Extend, Prepend;
    forall tail: seq<nat> | tail != []
      ensures CutRun(w, f, s, Extend([], 0, tail)) == Prepend(Run([], [], Running, s), CutRun(w, f, s, tail))
    {
      ExtendNothing(tail);
      PrependEmpty(s, CutRun(w, f, s, tail));
    }
  }

  lemma ExtendNothing(tail: seq<nat>)
    requires tail != []
    ensures Extend([], 0, tail) == tail
  {
  }

  function Stepped(step: Engine.Advance): Run
  {
    Run(step.trace, step.examined, Running, step.state)
  }

  lemma RunTakesTurn(w: World, f: Workflow, s: State, a: Action, rest: seq<Flags>)
    requires Fits(f, s) && NextAction(f, s) == Some(a)
    ensures match TakeTurn(w, f, s, a, QUIET)
            case Ended(run) => RunFrom(w, f, s, [QUIET] + rest) == run
            case Went(step) =>
              RunFrom(w, f, s, [QUIET] + rest) == Prepend(Stepped(step), RunFrom(w, f, step.state, rest))
  {
    hide TakeTurn;
    assert ([QUIET] + rest)[0] == QUIET && ([QUIET] + rest)[1..] == rest;
  }

  lemma CutTakesTurn(w: World, f: Workflow, s: State, a: Action, step: Engine.Advance, tail: seq<nat>)
    requires Fits(f, s) && NextAction(f, s) == Some(a) && tail != [] && Fits(f, step.state)
    requires TakeTurn(w, f, s, a, QUIET) == Went(step)
    ensures CutRun(w, f, s, [tail[0] + 1] + tail[1..]) == Prepend(Stepped(step), CutRun(w, f, step.state, tail))
  {
    hide TakeTurn, RunFrom;
    var longer := [tail[0] + 1] + tail[1..];
    assert longer[1..] == tail[1..];
    if |tail| == 1 {
      assert Quiet(tail[0] + 1) == [QUIET] + Quiet(tail[0]);
      RunTakesTurn(w, f, s, a, Quiet(tail[0]));
    } else {
      assert Quiet(tail[0] + 1) + [PAUSE] == [QUIET] + (Quiet(tail[0]) + [PAUSE]);
      RunTakesTurn(w, f, s, a, Quiet(tail[0]) + [PAUSE]);
      var leg := RunFrom(w, f, step.state, Quiet(tail[0]) + [PAUSE]);
      if leg.outcome.Paused? {
        PrependIsAssociative(Stepped(step), leg,
                             CutRun(w, f, ResumedState(f, leg.outcome.at, [], leg.final.cells.acc, leg.final.execution),
                                    tail[1..]));
      }
    }
  }

  lemma TurnContinues(w: World, f: Workflow, first: State, legs: seq<nat>, turns: nat, r: Run, a: Action,
                      step: Engine.Advance)
    requires Fits(f, first) && Fits(f, r.final) && Continues(w, f, first, legs, turns, r)
    requires NextAction(f, r.final) == Some(a) && Fits(f, step.state) && TakeTurn(w, f, r.final, a, QUIET) == Went(step)
    ensures Continues(w, f, first, legs, turns + 1, Prepend(r, Stepped(step)))
  {
    hide CutRun, TakeTurn, NextAction;
    forall tail: seq<nat> | tail != []
      ensures CutRun(w, f, first, Extend(legs, turns + 1, tail)) ==
              Prepend(Prepend(r, Stepped(step)), CutRun(w, f, step.state, tail))
    {
      var longer := [tail[0] + 1] + tail[1..];
      assert Extend(legs, turns, longer) == Extend(legs, turns + 1, tail);
      CutTakesTurn(w, f, r.final, a, step, tail);
      PrependIsAssociative(r, Stepped(step), CutRun(w, f, step.state, tail));
    }
  }

  lemma EndContinues(w: World, f: Workflow, first: State, legs: seq<nat>, turns: nat, r: Run, run: Run)
    requires Fits(f, first) && Fits(f, r.final) && Continues(w, f, first, legs, turns, r)
    requires TurnOf(w, f, r.final, QUIET) == Ended(run)
    ensures CutRun(w, f, first, legs + [turns + 1]) == Prepend(r, run)
  {
    assert Extend(legs, turns, [1]) == legs + [turns + 1];
    assert RunFrom(w, f, r.final, Quiet(1)) == run by {
      hide TakeTurn;
      assert Quiet(1) == [QUIET] + [];
      if NextAction(f, r.final).Some? {
        RunTakesTurn(w, f, r.final, NextAction(f, r.final).value, []);
      }
    }
    hide RunFrom, TakeTurn;
    assert CutRun(w, f, r.final, [1]) == run;
    hide CutRun;
  }

  /** The run without the event that closed its last leg. */
  function Unmarked(r: Run): Run
    requires r.trace != []
  {
    r.(trace := r.trace[..|r.trace|-1])
  }

  function PausedAt(f: Workflow, s: State): Run
    requires NextAction(f, s).Some?
  {
    var at := NextAction(f, s).value.id;
    Run([WorkflowPaused(at)], [], Paused(at), s)
  }

  lemma CutPauses(w: World, f: Workflow, s: State, tail: seq<nat>)
    requires Fits(f, s) && NextAction(f, s).Some? && tail != []
    ensures CutRun(w, f, s, [0] + tail) == Prepend(PausedAt(f, s), CutRun(w, f, Resumption(f, s), tail))
  {
    PauseEnds(w, f, s);
    hide NextAction, RunFrom;
    assert ([0] + tail)[1..] == tail && Quiet(0) + [PAUSE] == [PAUSE];
  }

  lemma ResumeContinues(w: World, f: Workflow, first: State, legs: seq<nat>, turns: nat, r: Run)
    requires Fits(f, first) && Fits(f, r.final) && NextAction(f, r.final).Some?
    requires r.trace != [] && r.trace[|r.trace|-1] == WorkflowPaused(NextAction(f, r.final).value.id)
    requires Continues(w, f, first, legs, turns, Unmarked(r))
    ensures Continues(w, f, first, legs + [turns], 0, Run(r.trace, r.examined, Running, Resumption(f, r.final)))
  {
    var resumed, paused := Resumption(f, r.final), PausedAt(f, r.final);
    assert r.trace == Unmarked(r).trace + paused.trace && r.examined + [] == r.examined;
    hide NextAction, RunFrom, CutRun, Resumption, Extend;
    forall tail: seq<nat> | tail != []
      ensures CutRun(w, f, first, Extend(legs + [turns], 0, tail)) ==
              Prepend(Run(r.trace, r.examined, Running, resumed), CutRun(w, f, resumed, tail))
    {
      CutPauses(w, f, r.final, tail);
      ExtendByLeg(legs, turns, tail);
      PrependIsAssociative(Unmarked(r), paused, CutRun(w, f, resumed, tail));
    }
  }

  lemma ExtendByLeg(legs: seq<nat>, turns: nat, tail: seq<nat>)
    requires tail != []
    ensures Extend(legs, turns, [0] + tail) == Extend(legs + [turns], 0, tail)
  {
    assert ([0] + tail)[1..] == tail;
  }

  // ---------------------------------------------------------------- requests are for their execution's workflow

  ghost predicate WorkflowsFit(s: System)
  {
    forall r :: Token(s, r) ==> r.execution in s.server.rows && r.workflow == s.server.rows[r.execution].workflow
  }

  ghost predicate RowsStay(a: Server, b: Server)
  {
    forall e :: e in a.rows ==> e in b.rows && b.rows[e].workflow == a.rows[e].workflow
  }

  lemma CommandKeepsWorkflows(s: System, srv: Server)
    requires WorkflowsFit(s) && RowsStay(s.server, srv)
    requires srv.queue == s.server.queue
             || (srv.queue != [] && srv.queue[1..] == s.server.queue && srv.queue[0].execution in srv.rows
                 && srv.queue[0].workflow == srv.rows[srv.queue[0].execution].workflow)
    ensures WorkflowsFit(Command(s, srv))
  {
    var t := Command(s, srv);
    forall r | Token(t, r) ensures r.execution in srv.rows && r.workflow == srv.rows[r.execution].workflow {
      if srv.queue != s.server.queue {
        assert srv.queue == [srv.queue[0]] + s.server.queue;
      }
      assert Token(s, r) || (srv.queue != [] && r == srv.queue[0]);
    }
  }

  lemma EnqueueKeepsWorkflows(s: System, e: Id, workflow: Id, start: Option<Id>, resume: bool)
    requires WorkflowsFit(s) && (e in s.server.rows ==> workflow == s.server.rows[e].workflow)
    ensures RowsStay(s.server, Enqueue(s.server, e, workflow, start, resume))
    ensures WorkflowsFit(Command(s, Enqueue(s.server, e, workflow, start, resume)))
  {
    CommandKeepsWorkflows(s, Enqueue(s.server, e, workflow, start, resume));
  }

  /** No token is new. */
  lemma TokensKeepWorkflows(s: System, t: System)
    requires WorkflowsFit(s) && RowsStay(s.server, t.server) && forall r :: Token(t, r) ==> Token(s, r)
    ensures WorkflowsFit(t)
  {
  }

  lemma MoveKeepsWorkflows(db: Database, s: System, step: Step)
    requires WorkflowsFit(s) && (step.Pop? || step.Begin? || step.Deliver? || step.Advance? || step.Stop?)
    ensures RowsStay(s.server, Next(db, s, step).server) && WorkflowsFit(Next(db, s, step))
  {
    hide WorkflowsFit, Runs;
    TokensKeepWorkflows(s, Next(db, s, step));
  }

  lemma StepKeepsWorkflows(db: Database, s: System, step: Step)
    requires WorkflowsFit(s)
    ensures RowsStay(s.server, Next(db, s, step).server) && WorkflowsFit(Next(db, s, step))
  {
    hide WorkflowsFit, Enqueue, Runs, Waiting, Token;
    var srv := s.server;
    match step {
      case Execute(e, workflow, start) =>
        if e !in srv.rows && workflow in db.starts {
          EnqueueKeepsWorkflows(s, e, workflow, start, false);
        }
        StillFits(s);
      case Pause(e) => CommandKeepsWorkflows(s, OnPause(srv, e));
      case Resume(e) =>
        if Resumable(db, srv, e) {
          EnqueueKeepsWorkflows(s, e, srv.rows[e].workflow,
                                Some(if e in srv.saved then srv.saved[e] else db.starts[srv.rows[e].workflow]), true);
        }
        StillFits(s);
      case Abort(e) => CommandKeepsWorkflows(s, OnAbort(srv, e));
      case Trigger(e, holds) =>
        if Triggerable(db, srv, e) && holds {
          EnqueueKeepsWorkflows(s, e, srv.rows[e].workflow, Some(srv.saved[e]), true);
        }
        StillFits(s);
      case _ => MoveKeepsWorkflows(db, s, step);
    }
  }

  lemma StillFits(s: System)
    requires WorkflowsFit(s)
    ensures WorkflowsFit(Command(s, s.server))
  {
    CommandKeepsWorkflows(s, s.server);
  }

  // ---------------------------------------------------------------- the watched system

  /** What an execution has done since it was started, or was taken up otherwise than from a pause with nothing new:
      its workflow, the state it began with, how many turns each closed leg and the present one have taken, and the
      run so far over all the legs. Starts are not in its trace. */
  datatype Chronicle = Chronicle(workflow: Id, first: State, legs: seq<nat>, turns: nat, run: Run)

  /** The whole system with the chronicle of every execution. */
  datatype Watched = Watched(whole: Whole, log: map<Id, Chronicle>)

  function Begun(flows: Flows, x: Whole, log: map<Id, Chronicle>, step: WholeStep): Chronicle
    requires step.BeginRun? && step.request.workflow in flows.all
  {
    var e := step.request.execution;
    var s := StartState(flows, x, step);
    if step.request.resume && e in log && log[e].run.outcome.Paused? && step.args == [] then
      var c := log[e];
      c.(legs := c.legs + [c.turns], turns := 0, run := c.run.(outcome := Running, final := s))
    else Chronicle(step.request.workflow, s, [], 0, Run([], [], Running, s))
  }

  function Grown(c: Chronicle, turn: Engine.Turn): Chronicle
  {
    match turn
    case Went(step) => c.(turns := c.turns + 1, run := Prepend(c.run, Stepped(step)))
    case Ended(run) =>
      c.(turns := if run.outcome.Paused? || run.outcome.Aborted? then c.turns else c.turns + 1,
         run := Prepend(c.run, run))
  }

  predicate Starts(flows: Flows, x: Whole, step: WholeStep)
  {
    step.BeginRun? && step.request in x.system.accepted && Runs(DatabaseOf(flows), x.system, step.request)
    && step.request.execution in x.records
  }

  ghost function Noted(w: World, flows: Flows, x: Whole, log: map<Id, Chronicle>, step: WholeStep): map<Id, Chronicle>
  {
    if Starts(flows, x, step) then log[step.request.execution := Begun(flows, x, log, step)]
    else if step.Turn? && Ready(flows, x, step.request) && step.request.execution in log then
      log[step.request.execution := Grown(log[step.request.execution], TurnNow(w, flows, x, step.request))]
    else log
  }

  ghost function WatchedReach(w: World, flows: Flows, steps: seq<WholeStep>): Watched
  {
    if steps == [] then Watched(BEGINNING, map[])
    else
      var y := WatchedReach(w, flows, steps[..|steps|-1]);
      var step := steps[|steps|-1];
      Watched(WholeNext(w, flows, y.whole, step), Noted(w, flows, y.whole, y.log, step))
  }

  lemma {:induction false} WatchingChangesNothing(w: World, flows: Flows, steps: seq<WholeStep>)
    ensures WatchedReach(w, flows, steps).whole == WholeReach(w, flows, steps)
  {
    hide WholeNext, Noted;
    if steps != [] {
      WatchingChangesNothing(w, flows, steps[..|steps|-1]);
    }
  }

  // ---------------------------------------------------------------- what a chronicle says

  /** The run so far, without the event that paused or aborted it. */
  function Done(r: Run): Run
  {
    if (r.outcome.Paused? || r.outcome.Aborted?) && r.trace != [] then Unmarked(r) else r
  }

  /** The chronicle's run is the run from its first state cut by its legs. */
  ghost predicate Joined(w: World, f: Workflow, c: Chronicle)
  {
    && Fits(f, c.first) && Fits(f, c.run.final) && (forall k | 0 <= k < |f.branches| :: c.first.cells.counters[k] == 0)
    && match c.run.outcome
       case Running => Continues(w, f, c.first, c.legs, c.turns, c.run)
       case Paused(at) =>
         && NextAction(f, c.run.final).Some? && NextAction(f, c.run.final).value.id == at
         && c.run.trace != [] && c.run.trace[|c.run.trace|-1] == WorkflowPaused(at)
         && Continues(w, f, c.first, c.legs, c.turns, Done(c.run))
       case Aborted(at) =>
         && NextAction(f, c.run.final).Some?
         && c.run.trace != [] && c.run.trace[|c.run.trace|-1] == WorkflowAborted
         && Continues(w, f, c.first, c.legs, c.turns, Done(c.run))
       case _ => CutRun(w, f, c.first, c.legs + [c.turns]) == c.run
  }

  lemma NewIsJoined(w: World, f: Workflow, workflow: Id, s: State)
    requires Fits(f, s) && forall k | 0 <= k < |f.branches| :: s.cells.counters[k] == 0
    ensures Joined(w, f, Chronicle(workflow, s, [], 0, Run([], [], Running, s)))
  {
    StartContinues(w, f, s);
    hide Continues;
  }

  lemma ResumedIsJoined(w: World, f: Workflow, c: Chronicle)
    requires Joined(w, f, c) && c.run.outcome.Paused?
    ensures var s := Resumption(f, c.run.final);
            Joined(w, f, c.(legs := c.legs + [c.turns], turns := 0, run := c.run.(outcome := Running, final := s)))
  {
    hide Continues, NextAction, CutRun;
    var s := Resumption(f, c.run.final);
    ResumeContinuesFrom(w, f, c);
    assert c.run.(outcome := Running, final := s) == Run(c.run.trace, c.run.examined, Running, s);
  }

  lemma ResumeContinuesFrom(w: World, f: Workflow, c: Chronicle)
    requires Joined(w, f, c) && c.run.outcome.Paused?
    ensures Continues(w, f, c.first, c.legs + [c.turns], 0,
                      Run(c.run.trace, c.run.examined, Running, Resumption(f, c.run.final)))
  {
    hide Continues, NextAction, CutRun;
    ResumeContinues(w, f, c.first, c.legs, c.turns, c.run);
  }

  lemma GrownIsJoined(w: World, f: Workflow, c: Chronicle, flags: Flags)
    requires Joined(w, f, c) && c.run.outcome.Running?
    ensures Joined(w, f, Grown(c, TurnOf(w, f, c.run.final, flags)))
  {
    TurnOfCases(w, f, c.run.final, flags);
    var turn := TurnOf(w, f, c.run.final, flags);
    hide TurnOf, TakeTurn, NextAction, Joined, Grown;
    JoinedFits(w, f, c);
    match turn {
      case Went(step) => WentIsJoined(w, f, c, step);
      case Ended(run) =>
        if run.outcome.Paused? || run.outcome.Aborted? {
          MarkedIsJoined(w, f, c, run);
        } else {
          OverIsJoined(w, f, c, run);
        }
    }
  }

  lemma JoinedFits(w: World, f: Workflow, c: Chronicle)
    requires Joined(w, f, c)
    ensures Fits(f, c.first) && Fits(f, c.run.final)
  {
  }

  lemma WentIsJoined(w: World, f: Workflow, c: Chronicle, step: Engine.Advance)
    requires Joined(w, f, c) && c.run.outcome.Running? && Fits(f, c.run.final) && Fits(f, step.state)
    requires NextAction(f, c.run.final).Some?
    requires TakeTurn(w, f, c.run.final, NextAction(f, c.run.final).value, QUIET) == Went(step)
    ensures Joined(w, f, Grown(c, Went(step)))
  {
    hide TakeTurn, CutRun, NextAction, Continues;
    TurnContinues(w, f, c.first, c.legs, c.turns, c.run, NextAction(f, c.run.final).value, step);
  }

  lemma OverIsJoined(w: World, f: Workflow, c: Chronicle, run: Run)
    requires Joined(w, f, c) && c.run.outcome.Running? && Fits(f, c.run.final) && Fits(f, run.final)
    requires TurnOf(w, f, c.run.final, QUIET) == Ended(run)
    requires !run.outcome.Running? && !run.outcome.Paused? && !run.outcome.Aborted?
    ensures Joined(w, f, Grown(c, Ended(run)))
  {
    hide TurnOf, CutRun, NextAction, Continues;
    EndContinues(w, f, c.first, c.legs, c.turns, c.run, run);
  }

  lemma MarkedIsJoined(w: World, f: Workflow, c: Chronicle, run: Run)
    requires Joined(w, f, c) && c.run.outcome.Running? && NextAction(f, c.run.final).Some?
    requires match run.outcome
             case Paused(at) => run == PausedAt(f, c.run.final)
             case Aborted(at) => run == Run([WorkflowAborted], [], Aborted(at), c.run.final)
             case _ => false
    ensures Joined(w, f, Grown(c, Ended(run)))
  {
    hide CutRun, NextAction, Continues;
    MarkContinues(w, f, c, run);
  }

  lemma MarkContinues(w: World, f: Workflow, c: Chronicle, run: Run)
    requires Joined(w, f, c) && c.run.outcome.Running?
    requires |run.trace| == 1 && run.examined == [] && run.final == c.run.final
             && (run.outcome.Paused? || run.outcome.Aborted?)
    ensures Continues(w, f, c.first, c.legs, c.turns, Done(Prepend(c.run, run)))
  {
    var done := Done(Prepend(c.run, run));
    assert done.trace == c.run.trace && done.examined == c.run.examined && done.final == c.run.final;
    hide CutRun;
  }

  /** What a turn comes to, by the flags. */
  lemma TurnOfCases(w: World, f: Workflow, s: State, flags: Flags)
    requires Fits(f, s)
    ensures match TurnOf(w, f, s, flags)
            case Went(step) =>
              NextAction(f, s).Some? && Fits(f, step.state)
                  && TakeTurn(w, f, s, NextAction(f, s).value, QUIET) == Went(step)
            case Ended(run) =>
              && Fits(f, run.final) && !run.outcome.Running?
              && match run.outcome
                 case Paused(at) => NextAction(f, s).Some? && run == PausedAt(f, s)
                 case Aborted(at) => NextAction(f, s).Some? && run == Run([WorkflowAborted], [], Aborted(at), s)
                 case _ => TurnOf(w, f, s, QUIET) == Ended(run)
  {
    hide Engine.Execute, After, Following;
  }

  // ---------------------------------------------------------------- the chronicles of a run of the whole

  ghost predicate AllJoined(w: World, flows: Flows, log: map<Id, Chronicle>)
  {
    forall e :: e in log ==> log[e].workflow in flows.all && Joined(w, flows.all[log[e].workflow], log[e])
  }

  /** The chronicle of an execution ends where the system has the execution: in the state of its live run, or, paused,
      in what is stored of it. */
  ghost predicate Placed(x: Whole, log: map<Id, Chronicle>, e: Id)
  {
    && (forall r :: r in x.system.live && r.execution == e ==>
          && e in log && log[e].run.outcome.Running? && log[e].workflow == r.workflow
          && r in x.states && log[e].run.final == x.states[r])
    && (e in log ==> e in x.system.server.rows && log[e].workflow == x.system.server.rows[e].workflow)
    && (e in log && log[e].run.outcome.Paused? ==>
          && e in x.system.stopped && x.system.stopped[e] == log[e].run.outcome.at
          && Stored(x, e) == log[e].run.final.cells.acc && Drawn(x, e) == log[e].run.final.execution)
  }

  ghost predicate AllPlaced(x: Whole, log: map<Id, Chronicle>)
  {
    forall e :: Placed(x, log, e)
  }

  /** The two states agree on what a chronicle of the execution speaks of. */
  ghost predicate SamePlace(x: Whole, y: Whole, e: Id)
  {
    && (forall r: Request :: r.execution == e ==>
          (r in y.system.live <==> r in x.system.live)
              && (r in x.system.live && r in x.states ==> r in y.states && y.states[r] == x.states[r]))
    && (e in x.system.server.rows ==>
        e in y.system.server.rows && y.system.server.rows[e].workflow == x.system.server.rows[e].workflow)
    && (e in x.system.stopped ==> e in y.system.stopped && y.system.stopped[e] == x.system.stopped[e])
    && Stored(y, e) == Stored(x, e) && Drawn(y, e) == Drawn(x, e)
  }

  lemma StaysPlaced(x: Whole, y: Whole, log: map<Id, Chronicle>, e: Id)
    requires Placed(x, log, e) && SamePlace(x, y, e)
    ensures Placed(y, log, e)
  {
    hide Stored, Drawn;
  }

  /** A step about one execution keeps the places if it keeps that one's and leaves the others alone. */
  lemma OthersStayPlaced(x: Whole, y: Whole, log: map<Id, Chronicle>, e: Id, c: Chronicle)
    requires AllPlaced(x, log) && Placed(y, log[e := c], e) && forall d :: d != e ==> SamePlace(x, y, d)
    ensures AllPlaced(y, log[e := c])
  {
    var after := log[e := c];
    forall d ensures Placed(y, after, d) {
      if d != e {
        assert Placed(x, log, d) && SamePlace(x, y, d);
        hide SamePlace;
        StaysPlaced(x, y, log, d);
      }
    }
  }

  lemma UnchangedStayPlaced(x: Whole, y: Whole, log: map<Id, Chronicle>)
    requires AllPlaced(x, log) && forall d :: SamePlace(x, y, d)
    ensures AllPlaced(y, log)
  {
    forall d ensures Placed(y, log, d) {
      assert Placed(x, log, d) && SamePlace(x, y, d);
      hide SamePlace;
      StaysPlaced(x, y, log, d);
    }
  }

  lemma OtherKeepsRuns(db: Database, s: System, p: Step)
    requires !p.Begin? && !p.Advance? && !p.Stop?
    ensures Next(db, s, p).live.Keys == s.live.Keys && Next(db, s, p).stopped == s.stopped
  {
    hide Enqueue, OnExecute, OnPause, OnResume, OnAbort, OnTrigger;
  }

  lemma OtherIs(w: World, flows: Flows, x: Whole, p: Step)
    requires !p.Begin? && !p.Advance? && !p.Stop?
    ensures var y := WholeNext(w, flows, x, Other(p));
            y.system == Next(DatabaseOf(flows), x.system, p) && y == x.(system := y.system, records := y.records)
  {
    hide Next, WholeSystem.Recorded, DatabaseOf;
  }

  lemma SameRunsSamePlaces(x: Whole, y: Whole)
    requires y == x.(system := y.system, records := y.records)
    requires y.system.live.Keys == x.system.live.Keys && y.system.stopped == x.system.stopped
    requires RowsStay(x.system.server, y.system.server)
    ensures forall d :: SamePlace(x, y, d)
  {
    StoredStays(x, y);
    hide Stored, Drawn;
    assert forall q :: q in y.system.live <==> q in x.system.live;
  }

  lemma OtherIsPlaced(w: World, flows: Flows, x: Whole, log: map<Id, Chronicle>, p: Step)
    requires AllPlaced(x, log) && WorkflowsFit(x.system)
    ensures AllPlaced(WholeNext(w, flows, x, Other(p)), log)
  {
    var y := WholeNext(w, flows, x, Other(p));
    if !p.Begin? && !p.Advance? && !p.Stop? {
      OtherKeepsRuns(DatabaseOf(flows), x.system, p);
      StepKeepsWorkflows(DatabaseOf(flows), x.system, p);
      OtherIs(w, flows, x, p);
      hide *;
      SameRunsSamePlaces(x, y);
      UnchangedStayPlaced(x, y, log);
    }
  }

  lemma DroppedIsPlaced(w: World, flows: Flows, x: Whole, log: map<Id, Chronicle>, step: WholeStep)
    requires AllPlaced(x, log) && step.BeginRun?
    requires !(step.request in x.system.accepted && Runs(DatabaseOf(flows), x.system, step.request))
    ensures AllPlaced(WholeNext(w, flows, x, step), log)
  {
    var y := WholeNext(w, flows, x, step);
    hide Runs, StartState, AllPlaced;
    assert y == x.(system := y.system) && y.system.server == x.system.server && y.system.live == x.system.live
           && y.system.stopped == x.system.stopped;
    hide WholeNext;
    UnchangedStayPlaced(x, y, log);
  }

  /** Resuming a paused execution with nothing new puts it in the resumption of the state it was paused in. */
  lemma ResumesWherePaused(w: World, flows: Flows, x: Whole, log: map<Id, Chronicle>, step: WholeStep)
    requires Starts(flows, x, step) && step.request.resume && step.args == []
    requires Safe(x.system) && Placed(x, log, step.request.execution) && WorkflowsFit(x.system)
             && AllJoined(w, flows, log)
    requires step.request.execution in log && log[step.request.execution].run.outcome.Paused?
    ensures var c := log[step.request.execution];
            var f := flows.all[step.request.workflow];
            && c.workflow == step.request.workflow && NextAction(f, c.run.final).Some?
            && StartState(flows, x, step) == Resumption(f, c.run.final)
  {
    var r := step.request;
    assert SafeFor(x.system, r.execution) && Waiting(x.system, r) && Token(x.system, r);
    hide Stored, Drawn, Continues, NextAction, ResumedState, NewState;
    assert Joined(w, flows.all[log[r.execution].workflow], log[r.execution]);
  }

  lemma BegunIsPlaced(w: World, flows: Flows, x: Whole, log: map<Id, Chronicle>, step: WholeStep)
    requires AllPlaced(x, log) && Safe(x.system) && Conserved(x.system) && Starts(flows, x, step)
             && WorkflowsFit(x.system)
    ensures AllPlaced(WholeNext(w, flows, x, step), log[step.request.execution := Begun(flows, x, log, step)])
  {
    var r := step.request;
    assert Placed(x, log, r.execution);
    BegunIs(flows, x, log, step);
    NothingLive(x, r);
    RunStarts(w, flows, x, step);
    hide *;
    var y := WholeNext(w, flows, x, step);
    StartedIsPlaced(x, y, log, r, StartState(flows, x, step), Begun(flows, x, log, step));
  }

  lemma StartedIsPlaced(x: Whole, y: Whole, log: map<Id, Chronicle>, r: Request, s: State, c: Chronicle)
    requires AllPlaced(x, log) && c.run.outcome.Running? && c.run.final == s && c.workflow == r.workflow
    requires r.execution in x.system.server.rows && x.system.server.rows[r.execution].workflow == r.workflow
    requires forall q: Request :: q.execution == r.execution ==> q !in x.system.live
    requires y.system.live.Keys == x.system.live.Keys + {r} && y.states == x.states[r := s]
    requires y.system.server == WithStatus(x.system.server, r.execution, StatusRunning)
    requires y.system.stopped == x.system.stopped && y.stored == x.stored && y.drawn == x.drawn
    ensures AllPlaced(y, log[r.execution := c])
  {
    StoredStays(x, y);
    hide AllPlaced, Stored, Drawn;
    assert forall q :: q in y.system.live <==> q in x.system.live || q == r;
    assert forall d :: d != r.execution ==> SamePlace(x, y, d);
    assert Placed(y, log[r.execution := c], r.execution);
    hide SamePlace, Placed;
    OthersStayPlaced(x, y, log, r.execution, c);
  }

  lemma StoredStays(x: Whole, y: Whole)
    requires y.stored == x.stored && y.drawn == x.drawn
    ensures forall e :: Stored(y, e) == Stored(x, e) && Drawn(y, e) == Drawn(x, e)
  {
  }

  lemma BegunIs(flows: Flows, x: Whole, log: map<Id, Chronicle>, step: WholeStep)
    requires Starts(flows, x, step) && Placed(x, log, step.request.execution) && WorkflowsFit(x.system)
    ensures var c := Begun(flows, x, log, step);
            c.run.outcome.Running? && c.run.final == StartState(flows, x, step) && c.workflow == step.request.workflow
    ensures var r := step.request;
            r.execution in x.system.server.rows && x.system.server.rows[r.execution].workflow == r.workflow
  {
    hide StartState, Stored, Drawn;
    assert Token(x.system, step.request);
  }

  lemma WentIsPlaced(x: Whole, y: Whole, log: map<Id, Chronicle>, r: Request, c: Chronicle)
    requires AllPlaced(x, log) && r in x.system.live && r in y.states
    requires forall q: Request :: q in x.system.live && q.execution == r.execution ==> q == r
    requires c.run.outcome.Running? && c.run.final == y.states[r] && c.workflow == r.workflow
    requires y.system.live.Keys == x.system.live.Keys && y.states == x.states[r := y.states[r]]
    requires y.system.server == x.system.server && y.system.stopped == x.system.stopped
    requires y.stored == x.stored && y.drawn == x.drawn
    ensures AllPlaced(y, log[r.execution := c])
  {
    assert Placed(x, log, r.execution);
    StoredStays(x, y);
    hide AllPlaced, Stored, Drawn;
    assert forall q :: q in y.system.live <==> q in x.system.live;
    assert forall d :: d != r.execution ==> SamePlace(x, y, d);
    assert Placed(y, log[r.execution := c], r.execution);
    hide SamePlace, Placed;
    OthersStayPlaced(x, y, log, r.execution, c);
  }

  /** What the end of a live run changes of what chronicles speak of. */
  lemma FinishedIs(x: Whole, r: Request, run: Run)
    requires r in x.system.live && r.execution in x.system.server.rows && r.execution in x.records
    requires !run.outcome.Running? && (run.outcome.Paused? ==> run.outcome.at == x.system.live[r].at)
    ensures var y := Finished(x, EndRun(x.system, r, EndingOf(run.outcome)), r, run);
            && y.system.live.Keys == x.system.live.Keys - {r} && y.states == x.states - {r}
            && RowsStay(x.system.server, y.system.server)
            && (forall e :: e in x.system.stopped && e != r.execution ==>
                  e in y.system.stopped && y.system.stopped[e] == x.system.stopped[e])
            && (run.outcome.Paused? ==>
                  r.execution in y.system.stopped && y.system.stopped[r.execution] == run.outcome.at)
            && y.stored == x.stored[r.execution := run.final.cells.acc]
                && y.drawn == x.drawn[r.execution := run.final.execution]
  {
    hide ApplyAll;
  }

  lemma EndedElsewhere(x: Whole, y: Whole, r: Request, run: Run, d: Id)
    requires d != r.execution && y.system.live.Keys == x.system.live.Keys - {r} && y.states == x.states - {r}
    requires RowsStay(x.system.server, y.system.server)
    requires d in x.system.stopped ==> d in y.system.stopped && y.system.stopped[d] == x.system.stopped[d]
    requires y.stored == x.stored[r.execution := run.final.cells.acc]
    requires y.drawn == x.drawn[r.execution := run.final.execution]
    ensures SamePlace(x, y, d)
  {
    assert forall q :: q in y.system.live <==> q in x.system.live && q != r;
  }

  lemma FinishedIsPlaced(x: Whole, y: Whole, log: map<Id, Chronicle>, r: Request, run: Run, c: Chronicle)
    requires AllPlaced(x, log) && r in x.system.live && r.execution in x.system.server.rows
    requires forall q: Request :: q in x.system.live && q.execution == r.execution ==> q == r
    requires c.run.outcome == run.outcome && c.run.final == run.final && c.workflow == r.workflow
    requires y.system.live.Keys == x.system.live.Keys - {r} && y.states == x.states - {r}
    requires RowsStay(x.system.server, y.system.server)
    requires forall e :: e in x.system.stopped && e != r.execution ==>
               e in y.system.stopped && y.system.stopped[e] == x.system.stopped[e]
    requires run.outcome.Paused? ==> r.execution in y.system.stopped && y.system.stopped[r.execution] == run.outcome.at
    requires y.stored == x.stored[r.execution := run.final.cells.acc]
             && y.drawn == x.drawn[r.execution := run.final.execution]
    ensures AllPlaced(y, log[r.execution := c])
  {
    var e := r.execution;
    assert Placed(x, log, e);
    assert forall q :: q in y.system.live <==> q in x.system.live && q != r;
    hide AllPlaced, SamePlace;
    assert Placed(y, log[e := c], e) by {
      assert forall q: Request :: q.execution == e ==> q !in y.system.live;
    }
    hide Placed;
    forall d | d != e ensures SamePlace(x, y, d) {
      EndedElsewhere(x, y, r, run, d);
    }
    OthersStayPlaced(x, y, log, e, c);
  }

  lemma GrownIs(c: Chronicle, turn: Engine.Turn)
    ensures var d := Grown(c, turn);
            && d.workflow == c.workflow && d.first == c.first
            && d.run.final == (if turn.Ended? then turn.run.final else turn.step.state)
            && d.run.outcome == (if turn.Ended? then turn.run.outcome else Running)
  {
  }

  lemma TurnIsPlaced(w: World, flows: Flows, x: Whole, log: map<Id, Chronicle>, r: Request)
    requires AllPlaced(x, log) && Tied(flows, x) && Safe(x.system) && Ready(flows, x, r)
    ensures r.execution in log && log[r.execution].run.outcome.Running? && log[r.execution].workflow == r.workflow
    ensures log[r.execution].run.final == x.states[r]
    ensures AllPlaced(WholeNext(w, flows, x, Turn(r)),
                      log[r.execution := Grown(log[r.execution], TurnNow(w, flows, x, r))])
  {
    var f, s, flags, at := flows.all[r.workflow], x.states[r], FlagsOf(x.system.live[r]), x.system.live[r].at;
    assert RunTied(flows, x, r) && RecordTied(x, r.execution) && Placed(x, log, r.execution);
    OnlyLive(x, r);
    TurnKeepsPlace(w, f, s, flags, at);
    var turn := TurnNow(w, flows, x, r);
    var c := Grown(log[r.execution], turn);
    GrownIs(log[r.execution], turn);
    hide TurnOf, Safe, Tied, RunTied, RecordTied, EndRun, WholeNext, Ready, Finished, Grown, AllPlaced, Placed;
    match turn {
      case Ended(run) =>
        TurnEnds(w, flows, x, r, run);
        FinishedIs(x, r, run);
        hide RowsStay;
        FinishedIsPlaced(x, WholeNext(w, flows, x, Turn(r)), log, r, run, c);
      case Went(step) =>
        TurnGoes(w, flows, x, r, step, if step.state.next.Some? then step.state.next.value else at);
        WentIsPlaced(x, WholeNext(w, flows, x, Turn(r)), log, r, c);
    }
  }

  // ---------------------------------------------------------------- every reachable state

  ghost predicate Chronicled(w: World, flows: Flows, y: Watched)
  {
    AllPlaced(y.whole, y.log) && AllJoined(w, flows, y.log) && WorkflowsFit(y.whole.system)
  }

  lemma LogIsJoined(w: World, flows: Flows, log: map<Id, Chronicle>, e: Id, c: Chronicle)
    requires AllJoined(w, flows, log) && c.workflow in flows.all && Joined(w, flows.all[c.workflow], c)
    ensures AllJoined(w, flows, log[e := c])
  {
    hide Joined;
  }

  lemma StartStateIsFresh(flows: Flows, x: Whole, step: WholeStep)
    requires step.BeginRun? && step.request.workflow in flows.all
    ensures Fits(flows.all[step.request.workflow], StartState(flows, x, step))
    ensures var counters := StartState(flows, x, step).cells.counters;
            forall k | 0 <= k < |counters| :: counters[k] == 0
  {
    hide Stored, Drawn;
  }

  lemma BegunIsJoined(w: World, flows: Flows, x: Whole, log: map<Id, Chronicle>, step: WholeStep)
    requires Starts(flows, x, step)
    requires Safe(x.system) && AllPlaced(x, log) && WorkflowsFit(x.system) && AllJoined(w, flows, log)
    ensures AllJoined(w, flows, log[step.request.execution := Begun(flows, x, log, step)])
  {
    var r := step.request;
    var e := r.execution;
    var f := flows.all[r.workflow];
    assert Placed(x, log, e);
    BegunIs(flows, x, log, step);
    StartStateFits(flows, x, step);
    StartStateIsFresh(flows, x, step);
    if r.resume && e in log && log[e].run.outcome.Paused? && step.args == [] {
      ResumesWherePaused(w, flows, x, log, step);
      assert Joined(w, f, log[e]);
      hide AllJoined, Joined, StartState, Safe, Resumption;
      ResumedIsJoined(w, f, log[e]);
    } else {
      hide AllJoined, Joined, StartState, Safe;
      NewIsJoined(w, f, r.workflow, StartState(flows, x, step));
    }
    hide Begun, AllPlaced, Placed, WorkflowsFit, Starts;
    LogIsJoined(w, flows, log, e, Begun(flows, x, log, step));
  }

  lemma GrownLogIsJoined(w: World, flows: Flows, x: Whole, log: map<Id, Chronicle>, r: Request)
    requires AllJoined(w, flows, log) && Ready(flows, x, r) && r.execution in log
    requires log[r.execution].run.outcome.Running? && log[r.execution].workflow == r.workflow
    requires log[r.execution].run.final == x.states[r]
    ensures AllJoined(w, flows, log[r.execution := Grown(log[r.execution], TurnNow(w, flows, x, r))])
  {
    var c, f := log[r.execution], flows.all[r.workflow];
    assert Joined(w, f, c);
    hide AllJoined, Joined, TurnOf;
    GrownIsJoined(w, f, c, FlagsOf(x.system.live[r]));
    GrownIs(c, TurnNow(w, flows, x, r));
    hide Grown;
    LogIsJoined(w, flows, log, r.execution, Grown(c, TurnNow(w, flows, x, r)));
  }

  lemma StepIsChronicled(w: World, flows: Flows, y: Watched, step: WholeStep)
    requires Chronicled(w, flows, y) && Tied(flows, y.whole) && Safe(y.whole.system) && Conserved(y.whole.system)
    ensures AllPlaced(WholeNext(w, flows, y.whole, step), Noted(w, flows, y.whole, y.log, step))
    ensures AllJoined(w, flows, Noted(w, flows, y.whole, y.log, step))
  {
    var x, log := y.whole, y.log;
    match step {
      case Other(p) =>
        hide AllPlaced, AllJoined, WholeNext;
        OtherIsPlaced(w, flows, x, log, p);
      case BeginRun(r, _, _, _) =>
        assert RecordTied(x, r.execution);
        hide AllPlaced, AllJoined, WholeNext, Safe, Conserved, Tied, WorkflowsFit;
        if Starts(flows, x, step) {
          BegunIsPlaced(w, flows, x, log, step);
          BegunIsJoined(w, flows, x, log, step);
        } else {
          DroppedIsPlaced(w, flows, x, log, step);
        }
      case Turn(r) =>
        if Ready(flows, x, r) {
          hide AllPlaced, AllJoined, WholeNext, Safe, Tied, Ready;
          TurnIsPlaced(w, flows, x, log, r);
          GrownLogIsJoined(w, flows, x, log, r);
        }
    }
  }

  lemma {:induction false} WatchedIsChronicled(w: World, flows: Flows, steps: seq<WholeStep>)
    ensures Chronicled(w, flows, WatchedReach(w, flows, steps))
  {
    hide WholeNext, Noted, Reach, WholeReach, Projected, AllJoined;
    if steps == [] {
      NothingChronicled(w, flows);
    } else {
      var before := steps[..|steps|-1];
      var y, step := WatchedReach(w, flows, before), steps[|steps|-1];
      WatchedIsChronicled(w, flows, before);
      WatchingChangesNothing(w, flows, before);
      WholeIsTied(w, flows, before);
      ReachableIsSafe(DatabaseOf(flows), Projected(w, flows, before));
      hide AllPlaced, Tied, Safe, Conserved, Fifo, WorkflowsFit;
      StepIsChronicled(w, flows, y, step);
      WholeKeepsWorkflows(w, flows, y.whole, step);
    }
  }

  lemma WholeKeepsWorkflows(w: World, flows: Flows, x: Whole, step: WholeStep)
    requires WorkflowsFit(x.system)
    ensures WorkflowsFit(WholeNext(w, flows, x, step).system)
  {
    hide WorkflowsFit, Next, AsStep, WholeSystem.Recorded, StartState, TurnNow, ApplyAll;
    var p := AsStep(w, flows, x, step);
    if p.Some? {
      StepKeepsWorkflows(DatabaseOf(flows), x.system, p.value);
    }
  }

  lemma NothingChronicled(w: World, flows: Flows)
    ensures Chronicled(w, flows, Watched(BEGINNING, map[]))
  {
  }

  // ---------------------------------------------------------------- transparency and bounds, end to end

  predicate OnTheWay(o: Outcome)
  {
    o.Running? || o.Paused? || o.Aborted?
  }

  lemma OnTheWayContinues(w: World, f: Workflow, c: Chronicle)
    requires Joined(w, f, c)
    ensures OnTheWay(c.run.outcome) ==> Continues(w, f, c.first, c.legs, c.turns, Done(c.run))
    ensures !OnTheWay(c.run.outcome) ==> CutRun(w, f, c.first, c.legs + [c.turns]) == c.run
  {
    hide Continues, CutRun;
  }

  /** The run cut by a chronicle's legs is the chronicle's, closed if no action is next. */
  lemma ChronicleIsCut(w: World, f: Workflow, c: Chronicle)
    requires Joined(w, f, c)
    ensures CutRun(w, f, c.first, c.legs + [c.turns]) ==
            if OnTheWay(c.run.outcome) then Prepend(Done(c.run), RunFrom(w, f, c.run.final, [])) else c.run
  {
    OnTheWayContinues(w, f, c);
    JoinedFits(w, f, c);
    CutNowhere(w, f, c.run.final);
    assert Extend(c.legs, c.turns, [0]) == c.legs + [c.turns];
    assert Fits(f, Done(c.run).final) && Done(c.run).final == c.run.final;
    hide Joined, Extend, RunFrom, CutRun, Done;
  }

  lemma CutNowhere(w: World, f: Workflow, s: State)
    requires Fits(f, s)
    ensures CutRun(w, f, s, [0]) == RunFrom(w, f, s, [])
  {
    hide RunFrom;
    assert Quiet(0) == [];
  }

  /** What an execution has done over its legs is what the uncut run has done. */
  ghost predicate SameSoFar(f: Workflow, r: Run, whole: Run)
  {
    && Doings(Done(r).trace) == Doings(whole.trace)
    && r.examined == whole.examined
    && SameEntries(f, LastAccumulator(r), LastAccumulator(whole))
    && whole.outcome == (if !OnTheWay(r.outcome) then r.outcome else if NextAction(f, r.final).Some? then Running
                         else Completed)
  }

  lemma SameSoFarAs(w: World, f: Workflow, c: Chronicle, whole: Run)
    requires Joined(w, f, c) && SameRun(f, CutRun(w, f, c.first, c.legs + [c.turns]), whole)
    ensures SameSoFar(f, c.run, whole)
  {
    ChronicleIsCut(w, f, c);
    var rest := RunFrom(w, f, c.run.final, []);
    if OnTheWay(c.run.outcome) {
      RestIsQuiet(w, f, c.run.final);
      DoingsConcat(Done(c.run).trace, rest.trace);
      LastOfRest(Done(c.run), rest);
    }
    hide Joined, CutRun, RunFrom, NextAction, Doings, SameEntries;
  }

  lemma RestIsQuiet(w: World, f: Workflow, s: State)
    requires Fits(f, s)
    ensures var rest := RunFrom(w, f, s, []);
            && Doings(rest.trace) == [] && rest.examined == [] && LastAccumulator(rest) == s.cells.acc
            && rest.outcome == (if NextAction(f, s).Some? then Running else Completed)
            && (rest.trace == [] || rest.trace == [WorkflowShutdown(s.cells.acc)])
  {
    assert [WorkflowShutdown(s.cells.acc)][1..] == [];
  }

  lemma LastOfRest(r: Run, rest: Run)
    requires rest.outcome.Completed? ==> rest.trace != [] && rest.trace[|rest.trace|-1].WorkflowShutdown?
    ensures LastAccumulator(Prepend(r, rest)) == LastAccumulator(rest)
  {
  }

  /** What transparency requires of the state that a chronicle began with, in terms of the request: no arguments, and
      variables that do not override the workflow's own. */
  lemma BegunIsKept(flows: Flows, x: Whole, step: WholeStep)
    requires step.BeginRun? && step.request.workflow in flows.all && step.args == []
    requires var f := flows.all[step.request.workflow];
             Pausable(f) && forall k :: k in step.overrides && k in f.environment ==>
                 step.overrides[k] == f.environment[k]
    ensures Kept(flows.all[step.request.workflow], StartState(flows, x, step))
  {
    hide Stored, Drawn;
    assert ZeroedCounters(flows.all[step.request.workflow]).Keys == BranchIds(flows.all[step.request.workflow]);
  }

  /** In every reachable state of the whole system, under any interleaving of commands, pauses and resumes, what an
      execution has done over its legs is what one uninterrupted run does, from the state the first of them began
      with: the same actions once each with the same results, the same branches examined, and, apart from the
      branch counters, the same accumulator. */
  lemma TransparentEndToEnd(w: World, flows: Flows, steps: seq<WholeStep>, e: Id)
    requires e in WatchedReach(w, flows, steps).log
    requires var c := WatchedReach(w, flows, steps).log[e];
             && c.workflow in flows.all
             && var f := flows.all[c.workflow];
                Pausable(f) && Kept(f, c.first) && (c.first.next.Some? ==> c.first.next.value !in BranchIds(f))
    ensures var c := WatchedReach(w, flows, steps).log[e];
            var f := flows.all[c.workflow];
            Fits(f, c.first) && SameSoFar(f, c.run, RunFrom(w, f, c.first, Quiet(Sum(c.legs + [c.turns]))))
  {
    hide WatchedReach, RunFrom, Pausable, CutRun, SameRun, SameSoFar, AllPlaced;
    WatchedIsChronicled(w, flows, steps);
    var c := WatchedReach(w, flows, steps).log[e];
    var f := flows.all[c.workflow];
    JoinedFits(w, f, c);
    hide Joined;
    StartIsItsOwnMatch(f, c.first);
    hide Kept;
    PausingIsTransparent(w, f, c.first, c.first, c.legs + [c.turns]);
    SameSoFarAs(w, f, c, RunFrom(w, f, c.first, Quiet(Sum(c.legs + [c.turns]))));
  }

  lemma ChronicleStarts(w: World, f: Workflow, c: Chronicle)
    requires Joined(w, f, c)
    ensures Termination.Started(c.run.trace) == Termination.Started(CutRun(w, f, c.first, c.legs + [c.turns]).trace)
  {
    ChronicleIsCut(w, f, c);
    JoinedFits(w, f, c);
    MarkedTrace(w, f, c);
    hide *;
    if OnTheWay(c.run.outcome) {
      var rest := RunFrom(w, f, c.run.final, []);
      RestStartsNothing(w, f, c.run.final);
      StartedConcat(Done(c.run).trace, rest.trace);
      MarksStartNothing(c.run);
    }
  }

  /** A run that was paused or aborted ends with the event that says so. */
  ghost predicate Marked(r: Run)
  {
    r.outcome.Paused? || r.outcome.Aborted? ==>
      r.trace != [] && (r.trace[|r.trace|-1].WorkflowPaused? || r.trace[|r.trace|-1].WorkflowAborted?)
  }

  lemma MarkedTrace(w: World, f: Workflow, c: Chronicle)
    requires Joined(w, f, c)
    ensures Marked(c.run)
  {
    hide Continues, CutRun, NextAction;
  }

  lemma MarksStartNothing(r: Run)
    requires Marked(r)
    ensures Termination.Started(Done(r).trace) == Termination.Started(r.trace)
  {
    if r.outcome.Paused? || r.outcome.Aborted? {
      var mark := [r.trace[|r.trace|-1]];
      assert mark[1..] == [] && Termination.Started(mark) == 0;
      assert r.trace == Done(r).trace + mark;
      StartedConcat(Done(r).trace, mark);
    }
  }

  lemma RestStartsNothing(w: World, f: Workflow, s: State)
    requires Fits(f, s)
    ensures Termination.Started(RunFrom(w, f, s, []).trace) == 0
  {
    assert [WorkflowShutdown(s.cells.acc)][1..] == [];
  }

  /** In every reachable state of the whole system an execution whose loops are guarded by branch counters has
      started at most the bound of one leg times the number of its legs. */
  lemma BoundedEndToEnd(w: World, flows: Flows, steps: seq<WholeStep>, e: Id, guards: Guards)
    requires e in WatchedReach(w, flows, steps).log
    requires var c := WatchedReach(w, flows, steps).log[e];
             && c.workflow in flows.all
             && Guarded(w, flows.all[c.workflow], guards) && Acyclic(flows.all[c.workflow], guards)
    ensures var c := WatchedReach(w, flows, steps).log[e];
            Termination.Started(c.run.trace) <= (|c.legs| + 1) * LegBound(flows.all[c.workflow], guards)
  {
    hide WatchedReach, RunFrom, Guarded, Acyclic, CutRun, Continues, AllPlaced, LegBound, Termination.Started;
    WatchedIsChronicled(w, flows, steps);
    var c := WatchedReach(w, flows, steps).log[e];
    var f := flows.all[c.workflow];
    assert Joined(w, f, c);
    ChronicleStarts(w, f, c);
    CutLoopsEnd(w, f, guards, c.first, c.legs + [c.turns]);
  }

  // ---------------------------------------------------------------- worlds in which nothing raises

  lemma TurnDoesNotRaise(w: World, f: Workflow, s: State, flags: Flags)
    requires Fits(f, s) && forall a, acc :: !Raising.Throws(w, a, acc)
    ensures TurnOf(w, f, s, flags).Ended? ==> !RaisedInside(TurnOf(w, f, s, flags).run.outcome)
  {
    hide Raising.Throws, TakeTurn, Engine.Execute;
    if NextAction(f, s).Some? {
      var a := NextAction(f, s).value;
      Raising.TurnRaises(w, f, s, a, flags);
      if Engine.Execute(w, a, s.args, s.resume, s.execution, s.cells.acc).Threw? {
        Raising.ThrowsWithArguments(w, a, s.args, s.resume, s.execution, s.cells.acc);
        assert false;
      }
    }
  }

  /** If no check raises and every status is declared, no row is ever left executing in the whole system. */
  lemma {:induction false} DeclaredEndToEnd(w: World, flows: Flows, steps: seq<WholeStep>)
    requires Raising.ChecksReturn(w) && Raising.DeclaresStatuses(w)
    ensures WholeReach(w, flows, steps).raised == {}
    ensures forall e :: e in WholeReach(w, flows, steps).records ==>
              Executing(WholeReach(w, flows, steps).records[e].actions) == {}
  {
    hide Raising.ChecksReturn, Raising.DeclaresStatuses, WholeNext, Executing;
    if steps != [] {
      var before := steps[..|steps|-1];
      DeclaredEndToEnd(w, flows, before);
      StepRaisesNothing(w, flows, WholeReach(w, flows, before), steps[|steps|-1]);
    }
    forall e | e in WholeReach(w, flows, steps).records
      ensures Executing(WholeReach(w, flows, steps).records[e].actions) == {}
    {
      WholeIsFaithful(w, flows, steps, e);
    }
  }

  lemma StepRaisesNothing(w: World, flows: Flows, x: Whole, step: WholeStep)
    requires Raising.ChecksReturn(w) && Raising.DeclaresStatuses(w) && x.raised == {}
    ensures WholeNext(w, flows, x, step).raised == {}
  {
    Raising.NothingThrows(w);
    hide Raising.ChecksReturn, Raising.DeclaresStatuses, Raising.Throws, TurnOf, Next, ApplyAll, StartState,
      WholeSystem.Recorded;
    if step.Turn? && Ready(flows, x, step.request) {
      var r := step.request;
      TurnDoesNotRaise(w, flows.all[r.workflow], x.states[r], FlagsOf(x.system.live[r]));
    }
  }

  // ---------------------------------------------------------------- commands and records

  lemma {:induction false} CommandsAreProjected(w: World, flows: Flows, steps: seq<WholeStep>, p: Step)
    requires p.Abort? || p.Pause?
    ensures p in Projected(w, flows, steps) ==> Other(p) in steps
    decreases |steps|
  {
    hide WholeReach, TurnNow;
    if steps != [] {
      var before := steps[..|steps|-1];
      CommandsAreProjected(w, flows, before, p);
      assert steps[|steps|-1] in steps && forall s :: s in before ==> s in steps;
    }
  }

  /** In every reachable state: an execution recorded as aborted was the subject of a command to abort it, and one
      recorded as paused, of a command to pause it. */
  lemma RecordsFollowCommands(w: World, flows: Flows, steps: seq<WholeStep>, e: Id)
    ensures var x := WholeReach(w, flows, steps);
            e in x.records ==>
              && (x.records[e].status == StatusAborted ==> Other(Step.Abort(e)) in steps)
              && (x.records[e].status == StatusPaused ==> Other(Step.Pause(e)) in steps)
  {
    hide WholeReach, Reach, Projected;
    WholeIsTied(w, flows, steps);
    assert RecordTied(WholeReach(w, flows, steps), e);
    CommandsAreProjected(w, flows, steps, Step.Abort(e));
    CommandsAreProjected(w, flows, steps, Step.Pause(e));
    var commands := Projected(w, flows, steps);
    if Step.Abort(e) !in commands {
      Origins.OnlyCommandsAbort(DatabaseOf(flows), commands, e);
    }
    if Step.Pause(e) !in commands {
      Origins.OnlyCommandsPause(DatabaseOf(flows), commands, e);
    }
  }
}
