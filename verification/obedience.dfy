/** What stops a run on request, said of whole runs: the first flags raised while it is still going. */
module Obedience {
  import opened Elements
  import opened Engine
  import opened Pausing

  /** The first entry of the schedule at which a flag is up, or its length. */
  function FirstRaised(schedule: seq<Flags>): (k: nat)
    ensures k <= |schedule| && schedule[..k] == Quiet(k)
    ensures k < |schedule| ==> schedule[k] != QUIET
  {
    if schedule == [] || schedule[0] != QUIET then 0
    else
      var k := FirstRaised(schedule[1..]);
      assert schedule[..k+1] == [QUIET] + schedule[1..][..k];
      k + 1
  }

  lemma StopsHere(w: World, f: Workflow, s: State, schedule: seq<Flags>)
    requires Fits(f, s) && NextAction(f, s).Some? && schedule != [] && schedule[0] != QUIET
    ensures var at := NextAction(f, s).value.id;
            RunFrom(w, f, s, schedule) ==
            if schedule[0].pause then Run([WorkflowPaused(at)], [], Paused(at), s)
            else Run([WorkflowAborted], [], Aborted(at), s)
  {
    hide Execute, After;
  }

  lemma {:induction false} QuietNeverStops(w: World, f: Workflow, s: State, n: nat)
    requires Fits(f, s)
    ensures !RunFrom(w, f, s, Quiet(n)).outcome.Paused? && !RunFrom(w, f, s, Quiet(n)).outcome.Aborted?
    decreases n
  {
    hide TakeTurn;
    var action := NextAction(f, s);
    if action.Some? && n > 0 {
      QuietTurnGoesOn(w, f, s, action.value);
      var turn := TakeTurn(w, f, s, action.value, QUIET);
      assert Quiet(n)[1..] == Quiet(n - 1);
      if turn.Went? {
        QuietNeverStops(w, f, turn.step.state, n - 1);
      }
    }
  }

  lemma QuietTurnGoesOn(w: World, f: Workflow, s: State, a: Action)
    requires Fits(f, s)
    ensures var turn := TakeTurn(w, f, s, a, QUIET);
            turn.Ended? ==> !turn.run.outcome.Paused? && !turn.run.outcome.Aborted?
  {
    hide Execute, After;
  }

  /** The run is still going when the first flags are raised. */
  ghost predicate Reached(w: World, f: Workflow, s: State, schedule: seq<Flags>)
    requires Fits(f, s)
  {
    var k := FirstRaised(schedule);
    k < |schedule| && RunFrom(w, f, s, Quiet(k)).outcome.Running?
  }

  lemma {:induction false} RunningHasNext(w: World, f: Workflow, s: State, schedule: seq<Flags>)
    requires Fits(f, s)
    ensures var r := RunFrom(w, f, s, schedule); r.outcome.Running? ==> NextAction(f, r.final).Some?
    decreases |schedule|
  {
    hide TakeTurn;
    var action := NextAction(f, s);
    if action.Some? && schedule != [] {
      TurnNotRunning(w, f, s, action.value, schedule[0]);
      var turn := TakeTurn(w, f, s, action.value, schedule[0]);
      if turn.Went? {
        RunningHasNext(w, f, turn.step.state, schedule[1..]);
      }
    }
  }

  /** A run is paused or aborted exactly when it is still going at the first flags raised; it is paused if pause
      is among these, so that an abort raised with it is lost, and aborted if only abort is. It stops at the
      boundary it had reached, and nothing raised later matters. */
  lemma FirstFlagsDecide(w: World, f: Workflow, s: State, schedule: seq<Flags>)
    requires Fits(f, s)
    ensures var r := RunFrom(w, f, s, schedule);
            var k := FirstRaised(schedule);
            && (r.outcome.Paused? <==> Reached(w, f, s, schedule) && schedule[k].pause)
            && (r.outcome.Aborted? <==> Reached(w, f, s, schedule) && schedule[k].abort && !schedule[k].pause)
            && (Reached(w, f, s, schedule) ==> r.final == RunFrom(w, f, s, Quiet(k)).final)
  {
    hide RunFrom;
    var k := FirstRaised(schedule);
    assert schedule == Quiet(k) + schedule[k..];
    RunConcat(w, f, s, Quiet(k), schedule[k..]);
    QuietNeverStops(w, f, s, k);
    RunningHasNext(w, f, s, Quiet(k));
    var r := RunFrom(w, f, s, Quiet(k));
    if k == |schedule| {
      assert schedule == Quiet(k);
    } else if r.outcome.Running? {
      StopsHere(w, f, r.final, schedule[k..]);
    }
  }
}
