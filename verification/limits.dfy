/** Where pausing is not transparent, exactly: triggers, branch counters and overridden variables. */
module Limits {
  import opened Json
  import opened Elements
  import opened Parameters
  import opened Engine
  import opened Pausing

  /** The resumed context is the paused one exactly when no branch had been counted, the workflow's own
      variables still hold, and no start arguments were pending. */
  lemma ResumptionIsExact(f: Workflow, s: State)
    requires Engine.Fits(f, s) && NextAction(f, s).Some?
    ensures Resumption(f, s) == s.(resume := true) <==>
              && (forall i | 0 <= i < |f.branches| :: s.cells.counters[i] == 0)
              && HoldsEnvironment(f, s.cells.acc)
              && s.args == []
  {
    var r := Resumption(f, s);
    if HoldsEnvironment(f, s.cells.acc) {
      assert s.cells.acc + f.environment == s.cells.acc;
    }
    if r.cells.acc == s.cells.acc {
      forall k | k in f.environment ensures k in s.cells.acc && s.cells.acc[k] == f.environment[k] {
        assert r.cells.acc[k] == f.environment[k];
      }
    }
    if forall i | 0 <= i < |f.branches| :: s.cells.counters[i] == 0 {
      assert r.cells.counters == s.cells.counters;
    }
    if r.cells.counters == s.cells.counters {
      forall i | 0 <= i < |f.branches| ensures s.cells.counters[i] == 0 {
        assert r.cells.counters[i] == 0;
      }
    }
  }

  /** The count a condition would read next is the same after a resume exactly when the branch had never been
      examined. */
  lemma NextCountSurvives(f: Workflow, s: State, i: nat)
    requires Engine.Fits(f, s) && NextAction(f, s).Some? && i < |f.branches|
    ensures var id := f.branches[i].id;
            Count(f, i, Resumption(f, s).cells).acc[id] == Count(f, i, s.cells).acc[id] <==> s.cells.counters[i] == 0
  {
  }

  /** Resuming changes what an action does exactly when it has a trigger to wait for (and a device it can
      resolve). */
  lemma ResumeSkipsTrigger(w: World, a: Action, args: seq<Argument>, execution: nat, acc: Accumulator)
    ensures Execute(w, a, args, true, execution, acc) == Execute(w, a, args, false, execution, acc)
            <==> a.trigger.None? || ResolveDevice(w, a, acc).None?
  {
    hide CheckedArguments, ResolveDevice;
  }

  /** A resumed run never waits for trigger data again, whatever triggers it meets. */
  lemma {:induction false} ResumedNeverAwaits(w: World, f: Workflow, s: State, schedule: seq<Flags>)
    requires Engine.Fits(f, s) && s.resume
    ensures !RunFrom(w, f, s, schedule).outcome.AwaitingData?
    decreases |schedule|
  {
    var action := NextAction(f, s);
    if action.Some? && schedule != [] {
      ResumedTurn(w, f, s, action.value, schedule[0]);
      hide TakeTurn;
      var turn := TakeTurn(w, f, s, action.value, schedule[0]);
      if turn.Went? {
        ResumedNeverAwaits(w, f, turn.step.state, schedule[1..]);
      }
    }
  }

  lemma ResumedTurn(w: World, f: Workflow, s: State, a: Action, flags: Flags)
    requires Engine.Fits(f, s) && s.resume
    ensures match TakeTurn(w, f, s, a, flags)
            case Ended(run) => !run.outcome.AwaitingData?
            case Went(step) => step.state.resume
  {
    hide ResolveDevice, CheckedArguments, Choose, Outgoing;
  }

  // ---------------------------------------------------------------- a concrete workflow

  const NO_API := DataApi("data", [])

  /** A world whose app functions take no parameters and always succeed. */
  const PLAIN := World((_, _) => [], (_, _) => NO_API, (_, _) => NO_API, (_, v) => Accepts(v),
                       (_, _, _, _) => ActionResult(Null, Some("ok")), (_, _, _) => Some(true), (_, _, _) => None,
                       (_, _) => "ok", (_, _, _) => Some(false), Null, _ => None)

  const FIRST := Action("a", "app", "act", None, [], None)
  const SECOND := Action("t", "app", "act", None, [], Some(Expression("e", And, false, [], [])))

  /** One action followed by one that waits for a trigger. */
  const TWO_STEPS := Workflow("w", "a", [FIRST, SECOND], [Edge("b", "a", "t", "ok", None, 0)], map[])

  lemma NoParameters(acc: Accumulator)
    ensures CheckParameters(PLAIN, [], [], acc) == Accepts(map[])
  {
    assert Fitting(PLAIN, map[], {}, [], acc) == {};
    assert BoundValues(PLAIN, map[], {}, [], acc) == map[];
  }

  lemma FirstTurn(s: State)
    requires Engine.Fits(TWO_STEPS, s) && s.args == []
    ensures var t := TakeTurn(PLAIN, TWO_STEPS, s, FIRST, QUIET);
            t.Went? && t.step.state.next == Some("t") && t.step.state.args == [] && t.step.state.resume == s.resume
  {
    NoParameters(s.cells.acc);
    var done := Execute(PLAIN, FIRST, [], s.resume, s.execution, s.cells.acc);
    assert done.Executed? && done.status == "ok";
    assert Outgoing(TWO_STEPS, "a", 1) == [];
    assert Outgoing(TWO_STEPS, "a", 0) == [0];
    var written := s.cells.(acc := s.cells.acc["a" := done.result]);
    assert Takeable(PLAIN, TWO_STEPS.branches[0], "ok", "a", Count(TWO_STEPS, 0, written).acc);
    assert Choose(PLAIN, TWO_STEPS, [0], "ok", "a", written).taken == Some(0);
  }

  lemma SecondTurn(s: State)
    requires Engine.Fits(TWO_STEPS, s) && s.args == []
    ensures var t := TakeTurn(PLAIN, TWO_STEPS, s, SECOND, QUIET);
            if s.resume then t.Went? && t.step.state.next == None
            else t.Ended? && t.run.outcome == AwaitingData("t")
  {
    NoParameters(s.cells.acc);
    var done := Execute(PLAIN, SECOND, [], s.resume, s.execution, s.cells.acc);
    if s.resume {
      assert done.Executed?;
      assert Outgoing(TWO_STEPS, "t", 1) == [];
      assert Outgoing(TWO_STEPS, "t", 0) == [];
      var written := s.cells.(acc := s.cells.acc["t" := done.result]);
      assert Choose(PLAIN, TWO_STEPS, [], done.status, "t", written).taken == None;
    }
  }

  lemma FindsBoth()
    ensures FindAction(TWO_STEPS.actions, "a") == Some(FIRST)
    ensures FindAction(TWO_STEPS.actions, "t") == Some(SECOND)
  {
    assert TWO_STEPS.actions[1..] == [SECOND];
    assert FindAction([SECOND], "t") == Some(SECOND);
  }

  lemma FromSecond(s: State, n: nat)
    requires Engine.Fits(TWO_STEPS, s) && s.args == [] && s.next == Some("t") && n > 0
    ensures RunFrom(PLAIN, TWO_STEPS, s, Quiet(n)).outcome == if s.resume then Completed else AwaitingData("t")
  {
    hide TakeTurn;
    FindsBoth();
    SecondTurn(s);
    var t := TakeTurn(PLAIN, TWO_STEPS, s, SECOND, QUIET);
    if s.resume {
      assert RunFrom(PLAIN, TWO_STEPS, t.step.state, Quiet(n)[1..]).outcome == Completed;
    }
  }

  /** Uncut, the run stops at the trigger and waits; paused after the first action and resumed, it runs through
      the trigger to the end. */
  lemma PausingCanSkipTrigger()
    ensures var s := NewState(TWO_STEPS, "a", [], "", map[]);
            && RunFrom(PLAIN, TWO_STEPS, s, Quiet(Sum([1, 1]))).outcome == AwaitingData("t")
            && CutRun(PLAIN, TWO_STEPS, s, [1, 1]).outcome == Completed
  {
    var s := NewState(TWO_STEPS, "a", [], "", map[]);
    hide TakeTurn, CheckParameters;
    FindsBoth();
    FirstTurn(s);
    var step := TakeTurn(PLAIN, TWO_STEPS, s, FIRST, QUIET).step;
    assert [1, 1][1..] == [1] && [1][1..] == [];
    assert Sum([1]) == 1 + Sum([]);
    assert Sum([1, 1]) == 2;
    assert Quiet(2)[1..] == Quiet(1) && Quiet(1)[1..] == [];
    FromSecond(step.state, 1);
    assert RunFrom(PLAIN, TWO_STEPS, s, Quiet(1)) == Then(step, RunFrom(PLAIN, TWO_STEPS, step.state, []));
    RunConcat(PLAIN, TWO_STEPS, s, Quiet(1), [PAUSE]);
    PauseEnds(PLAIN, TWO_STEPS, step.state);
    var at := ResumedState(TWO_STEPS, "t", [], step.state.cells.acc, step.state.execution);
    FromSecond(at, 1);
    assert CutRun(PLAIN, TWO_STEPS, at, [1]) == RunFrom(PLAIN, TWO_STEPS, at, Quiet(1));
  }
}
