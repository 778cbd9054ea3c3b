/** Pausing and resuming is transparent: a run cut at any boundaries does what the uncut run does. */
module Pausing {
  import opened Json
  import opened Elements
  import opened Branches
  import opened Engine
  import opened Simulation
  import opened References

  // ---------------------------------------------------------------- runs over concatenated schedules

  function Prepend(r: Run, rest: Run): Run
  {
    Run(r.trace + rest.trace, r.examined + rest.examined, rest.outcome, rest.final)
  }

  /** A run that is still going carries on from its state; one that has ended no longer sees its schedule. */
  lemma {:induction false} RunConcat(w: World, f: Workflow, s: State, a: seq<Flags>, b: seq<Flags>)
    requires Fits(f, s)
    ensures var r := RunFrom(w, f, s, a);
            RunFrom(w, f, s, a + b) == if r.outcome.Running? then Prepend(r, RunFrom(w, f, r.final, b)) else r
    decreases |a|
  {
    hide TakeTurn;
    var action := NextAction(f, s);
    if a == [] {
      assert a + b == b;
      if action.Some? {
        var rest := RunFrom(w, f, s, b);
        assert [] + rest.trace == rest.trace && [] + rest.examined == rest.examined;
      }
    } else if action.Some? {
      TurnNotRunning(w, f, s, action.value, a[0]);
      var turn := TakeTurn(w, f, s, action.value, a[0]);
      assert (a + b)[0] == a[0] && (a + b)[1..] == a[1..] + b;
      if turn.Went? {
        RunConcat(w, f, turn.step.state, a[1..], b);
        var r := RunFrom(w, f, turn.step.state, a[1..]);
        if r.outcome.Running? {
          var rest := RunFrom(w, f, r.final, b);
          assert turn.step.trace + (r.trace + rest.trace) == (turn.step.trace + r.trace) + rest.trace;
          assert turn.step.examined + (r.examined + rest.examined) == (turn.step.examined + r.examined) + rest.examined;
        }
      }
    }
  }

  lemma TurnNotRunning(w: World, f: Workflow, s: State, a: Action, flags: Flags)
    requires Fits(f, s)
    ensures TakeTurn(w, f, s, a, flags).Ended? ==> !TakeTurn(w, f, s, a, flags).run.outcome.Running?
  {
    hide Execute, After;
  }

  function Quiet(n: nat): seq<Flags>
  {
    seq(n, _ => QUIET)
  }

  const PAUSE := Flags(true, false)

  // ---------------------------------------------------------------- what a run keeps

  /** The accumulator still holds the workflow's own environment variables. */
  ghost predicate HoldsEnvironment(f: Workflow, acc: Accumulator)
  {
    forall k :: k in f.environment ==> k in acc && acc[k] == f.environment[k]
  }

  ghost predicate Kept(f: Workflow, s: State)
  {
    s.args == [] && HoldsEnvironment(f, s.cells.acc)
  }

  lemma {:induction false} ChooseKeepsOthers(w: World, f: Workflow, js: seq<nat>, status: string, current: Id, c: Cells,
                                             k: Id)
    requires Positions(f, js) && |f.branches| == |c.counters| && current in c.acc && k !in BranchIds(f) && k in c.acc
    ensures Choose(w, f, js, status, current, c).cells.acc[k] == c.acc[k]
  {
    if js != [] {
      var counted := Count(f, js[0], c);
      assert f.branches[js[0]].id in BranchIds(f);
      if !Takeable(w, f.branches[js[0]], status, current, counted.acc)
         && !Breaks(w, f.branches[js[0]], status, current, counted.acc) {
        ChooseKeepsOthers(w, f, js[1..], status, current, counted, k);
      }
    }
  }

  lemma TurnKeeps(w: World, f: Workflow, s: State, a: Action, flags: Flags)
    requires Fits(f, s) && Kept(f, s) && a in f.actions
    requires f.environment.Keys !! ActionIds(f) && f.environment.Keys !! BranchIds(f)
    ensures var turn := TakeTurn(w, f, s, a, flags); turn.Went? ==> Kept(f, turn.step.state)
  {
    hide Execute, Choose, Outgoing;
    var done := Execute(w, a, s.args, s.resume, s.execution, s.cells.acc);
    assert a.id in ActionIds(f);
    if done.Executed? {
      var written := s.cells.(acc := s.cells.acc[a.id := done.result]);
      var js := Outgoing(f, a.id, 0);
      forall k | k in f.environment
        ensures var acc := Choose(w, f, js, done.status, a.id, written).cells.acc;
                k in acc && acc[k] == f.environment[k]
      {
        ChooseKeepsOthers(w, f, js, done.status, a.id, written, k);
      }
    }
  }

  /** A run that is still going has the next action at hand and has lost nothing of its environment. */
  lemma {:induction false} RunKeeps(w: World, f: Workflow, s: State, schedule: seq<Flags>)
    requires Fits(f, s) && Kept(f, s)
    requires f.environment.Keys !! ActionIds(f) && f.environment.Keys !! BranchIds(f)
    ensures var r := RunFrom(w, f, s, schedule);
            r.outcome.Running? ==> Kept(f, r.final) && NextAction(f, r.final).Some?
    decreases |schedule|
  {
    hide TakeTurn, Kept;
    var action := NextAction(f, s);
    if action.Some? && schedule != [] {
      TurnKeeps(w, f, s, action.value, schedule[0]);
      TurnNotRunning(w, f, s, action.value, schedule[0]);
      var turn := TakeTurn(w, f, s, action.value, schedule[0]);
      if turn.Went? {
        RunKeeps(w, f, turn.step.state, schedule[1..]);
      }
    }
  }

  // ---------------------------------------------------------------- cut runs

  /** A run paused after cuts[0] actions, resumed by another worker, paused after cuts[1] more, and so on; the
      last entry is how long the last leg is watched. */
  function CutRun(w: World, f: Workflow, s: State, cuts: seq<nat>): (r: Run)
    requires Fits(f, s) && cuts != []
    decreases |cuts|
  {
    if |cuts| == 1 then RunFrom(w, f, s, Quiet(cuts[0]))
    else
      var leg := RunFrom(w, f, s, Quiet(cuts[0]) + [PAUSE]);
      match leg.outcome
      case Paused(at) =>
        Prepend(leg, CutRun(w, f, ResumedState(f, at, [], leg.final.cells.acc, leg.final.execution), cuts[1..]))
      case _ => leg
  }

  function Sum(cuts: seq<nat>): nat
  {
    if cuts == [] then 0 else cuts[0] + Sum(cuts[1..])
  }

  /** What the run did, without the events that only mark where it was cut or what it ended with. */
  function Doings(trace: seq<Event>): seq<Event>
  {
    if trace == [] then []
    else if trace[0].WorkflowPaused? || trace[0].WorkflowShutdown? then Doings(trace[1..])
    else [trace[0]] + Doings(trace[1..])
  }

  lemma {:induction false} DoingsConcat(a: seq<Event>, b: seq<Event>)
    ensures Doings(a + b) == Doings(a) + Doings(b)
  {
    if a == [] {
      assert a + b == b;
    } else {
      assert (a + b)[1..] == a[1..] + b;
      DoingsConcat(a[1..], b);
    }
  }

  lemma {:induction false} SameDoings(m: Renaming, hidden: set<Id>, a: seq<Event>, b: seq<Event>)
    requires m == Except(hidden) && TraceSim(m, a, b)
    ensures Doings(a) == Doings(b)
  {
    if a != [] {
      assert EventSim(m, a[0], b[0]);
      SameDoings(m, hidden, a[1..], b[1..]);
    }
  }

  /** The checkable conditions: no triggers, ids of one kind are not ids of another, and nothing reads a branch
      counter. */
  ghost predicate Pausable(f: Workflow)
  {
    && TriggerFree(f)
    && ActionIds(f) !! BranchIds(f) && BranchEnds(f) !! BranchIds(f)
    && f.environment.Keys !! ActionIds(f) && f.environment.Keys !! BranchIds(f)
    && WorkflowReferences(f) !! BranchIds(f)
  }

  /** Equal entries, apart from branch counters. */
  ghost predicate SameEntries(f: Workflow, a: Accumulator, b: Accumulator)
  {
    forall k :: k !in BranchIds(f) ==> (k in a <==> k in b) && (k in a ==> a[k] == b[k])
  }

  /** Same outcome, same doings, and the same accumulator at the end, apart from branch counters. For a completed
      run that is the accumulator its shutdown event carries. */
  ghost predicate SameRun(f: Workflow, cut: Run, whole: Run)
  {
    && Doings(cut.trace) == Doings(whole.trace)
    && cut.examined == whole.examined
    && cut.outcome == whole.outcome
    && SameEntries(f, LastAccumulator(cut), LastAccumulator(whole))
  }

  /** A completed run ends with the event of its shutdown. */
  ghost predicate EndsTrace(r: Run)
  {
    r.outcome.Completed? ==> r.trace != [] && r.trace[|r.trace|-1].WorkflowShutdown?
  }

  lemma SimIsSame(f: Workflow, x: Run, y: Run)
    requires var m := Except(BranchIds(f)); RunSim(m, f, f, x, y)
    requires EndsTrace(x)
    ensures SameRun(f, x, y)
  {
    var m := Except(BranchIds(f));
    SameDoings(m, BranchIds(f), x.trace, y.trace);
    assert x.outcome.Completed? ==> EventSim(m, x.trace[|x.trace|-1], y.trace[|y.trace|-1]);
    assert AccSim(m, LastAccumulator(x), LastAccumulator(y));
    forall k | k !in BranchIds(f)
      ensures (k in LastAccumulator(x) <==> k in LastAccumulator(y))
        && (k in LastAccumulator(x) ==> LastAccumulator(x)[k] == LastAccumulator(y)[k])
    {
      assert k in m && m[k] == k;
    }
  }

  lemma ResumeSim(f: Workflow, s: State, t: State)
    requires var m := Except(BranchIds(f)); StateSim(m, f, f, s, t)
    requires Pausable(f) && Kept(f, s) && NextAction(f, s).Some?
    ensures StateSim(Except(BranchIds(f)), f, f,
                     ResumedState(f, NextAction(f, s).value.id, [], s.cells.acc, s.execution), t)
    ensures Kept(f, ResumedState(f, NextAction(f, s).value.id, [], s.cells.acc, s.execution))
  {
    assert s.cells.acc + f.environment == s.cells.acc;
  }

  lemma PauseEnds(w: World, f: Workflow, s: State)
    requires Fits(f, s) && NextAction(f, s).Some?
    ensures var at := NextAction(f, s).value.id;
            RunFrom(w, f, s, [PAUSE]) == Run([WorkflowPaused(at)], [], Paused(at), s)
  {
    hide Execute, After;
  }

  lemma {:induction false} QuietNeverPauses(w: World, f: Workflow, s: State, n: nat)
    requires Fits(f, s)
    ensures !RunFrom(w, f, s, Quiet(n)).outcome.Paused?
    decreases n
  {
    hide TakeTurn;
    var action := NextAction(f, s);
    if action.Some? && n > 0 {
      QuietTurn(w, f, s, action.value);
      var turn := TakeTurn(w, f, s, action.value, QUIET);
      assert Quiet(n)[1..] == Quiet(n - 1);
      if turn.Went? {
        QuietNeverPauses(w, f, turn.step.state, n - 1);
      }
    }
  }

  lemma QuietTurn(w: World, f: Workflow, s: State, a: Action)
    requires Fits(f, s)
    ensures TakeTurn(w, f, s, a, QUIET).Ended? ==> !TakeTurn(w, f, s, a, QUIET).run.outcome.Paused?
  {
    hide Execute, After;
  }

  lemma LegIsRelated(w: World, f: Workflow, s: State, t: State, n: nat)
    requires StateSim(Except(BranchIds(f)), f, f, s, t) && Pausable(f)
    ensures var x, y := RunFrom(w, f, s, Quiet(n)), RunFrom(w, f, t, Quiet(n));
            SameRun(f, x, y) && (x.outcome.Running? ==> StateSim(Except(BranchIds(f)), f, f, x.final, y.final))
  {
    assert Fits(f, s) && Fits(f, t);
    hide StateSim, RunFrom;
    WorkflowUnchanged(Except(BranchIds(f)), f);
    RunsAreRelated(w, Except(BranchIds(f)), f, f, s, t, Quiet(n));
    RunEndsTrace(w, f, s, Quiet(n));
    SimIsSame(f, RunFrom(w, f, s, Quiet(n)), RunFrom(w, f, t, Quiet(n)));
  }

  /** A leg that was paused where the run r has got to. */
  function PausedLeg(f: Workflow, r: Run): Run
    requires NextAction(f, r.final).Some?
  {
    var at := NextAction(f, r.final).value.id;
    Run(r.trace + [WorkflowPaused(at)], r.examined, Paused(at), r.final)
  }

  /** One leg: either the run ended in it, or it stands paused at the boundary the uncut run is passing. */
  lemma LegThenPause(w: World, f: Workflow, s: State, n: nat)
    requires Fits(f, s) && Kept(f, s) && Pausable(f)
    ensures var r := RunFrom(w, f, s, Quiet(n));
            var leg := RunFrom(w, f, s, Quiet(n) + [PAUSE]);
            if r.outcome.Running? then
              Kept(f, r.final) && NextAction(f, r.final).Some?
              && leg == PausedLeg(f, r)
            else leg == r && !leg.outcome.Paused?
  {
    hide RunFrom, Kept;
    RunConcat(w, f, s, Quiet(n), [PAUSE]);
    RunKeeps(w, f, s, Quiet(n));
    QuietNeverPauses(w, f, s, n);
    var r := RunFrom(w, f, s, Quiet(n));
    if r.outcome.Running? {
      PauseEnds(w, f, r.final);
      assert r.examined + [] == r.examined;
    }
  }

  lemma PrependSame(f: Workflow, r: Run, cut: Run, first: Run, rest: Run)
    requires NextAction(f, r.final).Some?
    requires r.examined == first.examined && Doings(r.trace) == Doings(first.trace)
    requires SameRun(f, cut, rest) && EndsTrace(cut) && EndsTrace(rest)
    ensures SameRun(f, Prepend(PausedLeg(f, r), cut), Prepend(first, rest))
  {
    var mark := [WorkflowPaused(NextAction(f, r.final).value.id)];
    DoingsConcat(r.trace, mark);
    DoingsConcat(r.trace + mark, cut.trace);
    DoingsConcat(first.trace, rest.trace);
    assert mark[1..] == [] && Doings(mark) == [];
    PrependEnds(PausedLeg(f, r), cut);
    PrependEnds(first, rest);
  }

  lemma PrependEnds(r: Run, rest: Run)
    requires EndsTrace(rest)
    ensures EndsTrace(Prepend(r, rest)) && LastAccumulator(Prepend(r, rest)) == LastAccumulator(rest)
  {
  }

  /** The context a worker makes for a run found paused in the given state. */
  function Resumption(f: Workflow, s: State): State
    requires NextAction(f, s).Some?
  {
    ResumedState(f, NextAction(f, s).value.id, [], s.cells.acc, s.execution)
  }

  lemma CutUnfolds(w: World, f: Workflow, s: State, cuts: seq<nat>)
    requires Fits(f, s) && Kept(f, s) && Pausable(f) && |cuts| > 1
    ensures var r := RunFrom(w, f, s, Quiet(cuts[0]));
            if r.outcome.Running? then
              Kept(f, r.final) && NextAction(f, r.final).Some?
              && CutRun(w, f, s, cuts) == Prepend(PausedLeg(f, r), CutRun(w, f, Resumption(f, r.final), cuts[1..]))
            else CutRun(w, f, s, cuts) == r
  {
    hide RunFrom, Kept, Pausable;
    LegThenPause(w, f, s, cuts[0]);
  }

  lemma WholeUnfolds(w: World, f: Workflow, t: State, cuts: seq<nat>)
    requires Fits(f, t) && |cuts| > 1
    ensures var r := RunFrom(w, f, t, Quiet(cuts[0]));
            RunFrom(w, f, t, Quiet(Sum(cuts))) ==
            if r.outcome.Running? then Prepend(r, RunFrom(w, f, r.final, Quiet(Sum(cuts[1..])))) else r
  {
    hide RunFrom;
    assert Quiet(cuts[0]) + Quiet(Sum(cuts[1..])) == Quiet(Sum(cuts));
    RunConcat(w, f, t, Quiet(cuts[0]), Quiet(Sum(cuts[1..])));
  }

  lemma {:induction false} CutEndsTrace(w: World, f: Workflow, s: State, cuts: seq<nat>)
    requires Fits(f, s) && Kept(f, s) && Pausable(f) && cuts != []
    ensures EndsTrace(CutRun(w, f, s, cuts))
    decreases |cuts|
  {
    hide RunFrom, Kept, Pausable, NextAction;
    RunEndsTrace(w, f, s, Quiet(cuts[0]));
    if |cuts| > 1 {
      CutUnfolds(w, f, s, cuts);
      var r := RunFrom(w, f, s, Quiet(cuts[0]));
      if r.outcome.Running? {
        ResumedIsKept(f, r.final);
        CutEndsTrace(w, f, Resumption(f, r.final), cuts[1..]);
        PrependEnds(PausedLeg(f, r), CutRun(w, f, Resumption(f, r.final), cuts[1..]));
      }
    }
  }

  lemma NoCut(w: World, f: Workflow, s: State, cuts: seq<nat>)
    requires Fits(f, s) && Kept(f, s) && Pausable(f) && |cuts| == 1
    ensures CutRun(w, f, s, cuts) == RunFrom(w, f, s, Quiet(cuts[0])) && Sum(cuts) == cuts[0]
  {
    hide RunFrom, Kept, Pausable;
    assert cuts[1..] == [];
  }

  lemma ResumedIsKept(f: Workflow, s: State)
    requires Kept(f, s) && NextAction(f, s).Some?
    ensures Kept(f, Resumption(f, s))
  {
  }

  lemma CutAgain(w: World, f: Workflow, s: State, t: State, cuts: seq<nat>)
    requires Fits(f, s) && Fits(f, t) && Kept(f, s) && Pausable(f) && |cuts| > 1
    requires var r, r' := RunFrom(w, f, s, Quiet(cuts[0])), RunFrom(w, f, t, Quiet(cuts[0]));
             && r.outcome.Running? && Kept(f, r.final) && NextAction(f, r.final).Some? && SameRun(f, r, r')
             && SameRun(f, CutRun(w, f, Resumption(f, r.final), cuts[1..]),
                        RunFrom(w, f, r'.final, Quiet(Sum(cuts[1..]))))
    ensures SameRun(f, CutRun(w, f, s, cuts), RunFrom(w, f, t, Quiet(Sum(cuts))))
  {
    hide RunFrom, Kept, Pausable, Doings, NextAction, SameEntries, CutRun, Sum;
    var r, r' := RunFrom(w, f, s, Quiet(cuts[0])), RunFrom(w, f, t, Quiet(cuts[0]));
    CutUnfolds(w, f, s, cuts);
    WholeUnfolds(w, f, t, cuts);
    ResumedIsKept(f, r.final);
    CutEndsTrace(w, f, Resumption(f, r.final), cuts[1..]);
    RunEndsTrace(w, f, r'.final, Quiet(Sum(cuts[1..])));
    PrependSame(f, r, CutRun(w, f, Resumption(f, r.final), cuts[1..]),
                r', RunFrom(w, f, r'.final, Quiet(Sum(cuts[1..]))));
  }

  /** Cutting a run with any number of pauses and resumes changes nothing but branch counters: the same
      actions are executed once each, with the same results, and the same branches are examined. */
  lemma {:induction false} PausingIsTransparent(w: World, f: Workflow, s: State, t: State, cuts: seq<nat>)
    requires Pausable(f) && cuts != []
    requires StateSim(Except(BranchIds(f)), f, f, s, t) && Kept(f, s)
    ensures SameRun(f, CutRun(w, f, s, cuts), RunFrom(w, f, t, Quiet(Sum(cuts))))
    decreases |cuts|
  {
    assert Fits(f, s) && Fits(f, t);
    hide RunFrom, StateSim, Kept, Pausable, Doings, NextAction, SameEntries, CutRun, Sum;
    LegIsRelated(w, f, s, t, cuts[0]);
    if |cuts| == 1 {
      NoCut(w, f, s, cuts);
    } else {
      CutUnfolds(w, f, s, cuts);
      WholeUnfolds(w, f, t, cuts);
      var r, r' := RunFrom(w, f, s, Quiet(cuts[0])), RunFrom(w, f, t, Quiet(cuts[0]));
      if r.outcome.Running? {
        ResumeSim(f, r.final, r'.final);
        PausingIsTransparent(w, f, Resumption(f, r.final), r'.final, cuts[1..]);
        CutAgain(w, f, s, t, cuts);
      }
    }
  }

  lemma StartIsItsOwnMatch(f: Workflow, s: State)
    requires Pausable(f) && Fits(f, s) && s.args == [] && (s.next.Some? ==> s.next.value !in BranchIds(f))
    ensures StateSim(Except(BranchIds(f)), f, f, s, s)
  {
    var m := Except(BranchIds(f));
    forall a | a in f.actions ensures SameDevice(m, a) {
      if a.device.Some? && a.device.value.reference.Some? {
        assert a.device.value.reference.value in ArgReferences([a.device.value]);
        assert a.device.value.reference.value in ActionReferences(a);
        assert a.device.value.reference.value in WorkflowReferences(f);
      }
    }
  }

  /** Transparency from the start of an execution, for every workflow meeting the conditions, every requesting
      user and every sequence of cuts; run-specific variables may not override the workflow's own. */
  lemma ExecutionSurvivesPauses(w: World, f: Workflow, start: Id, user: string, overrides: map<Id, Value>,
                                cuts: seq<nat>)
    requires Pausable(f) && cuts != [] && start in ActionIds(f)
    requires forall k :: k in overrides && k in f.environment ==> overrides[k] == f.environment[k]
    ensures var s := NewState(f, start, [], user, overrides);
            SameRun(f, CutRun(w, f, s, cuts), RunFrom(w, f, s, Quiet(Sum(cuts))))
  {
    var s := NewState(f, start, [], user, overrides);
    assert ZeroedCounters(f).Keys == BranchIds(f);
    assert Kept(f, s);
    hide RunFrom;
    StartIsItsOwnMatch(f, s);
    PausingIsTransparent(w, f, s, s, cuts);
  }
}
