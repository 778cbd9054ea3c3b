/** Loops guarded by branch counters end: a bound on the number of actions a run executes. */
module Termination {
  import opened Json
  import opened Branches
  import opened Elements
  import opened Conditions
  import opened Engine
  import opened References
  import opened Pausing

  /** The guarded branches, by position, with the count beyond which each one's condition is false. */
  type Guards = map<nat, nat>

  /** The branch's condition is false once its own entry in the accumulator exceeds the bound. */
  ghost predicate FalseBeyond(w: World, b: Edge, bound: nat)
  {
    b.condition.Some? &&
    forall data: Value, acc: Accumulator ::
      b.id in acc && acc[b.id].Num? && acc[b.id].n > bound as real ==>
        !Eval(b.condition.value, LeafOf(w, data, acc)).holds
  }

  ghost predicate Guarded(w: World, f: Workflow, guards: Guards)
  {
    forall i :: i in guards ==> i < |f.branches| && FalseBeyond(w, f.branches[i], guards[i])
  }

  ghost predicate Linked(f: Workflow, guards: Guards, x: Id, y: Id)
  {
    exists i: nat :: i < |f.branches| && i !in guards && f.branches[i].source == x && f.branches[i].destination == y
  }

  /** A walk along unguarded branches. */
  ghost predicate Path(f: Workflow, guards: Guards, p: seq<Id>)
  {
    forall k | 0 <= k < |p| - 1 :: Linked(f, guards, p[k], p[k+1])
  }

  /** Without the guarded branches the graph has no cycle. */
  ghost predicate Acyclic(f: Workflow, guards: Guards)
  {
    forall p: seq<Id> :: Path(f, guards, p) && |p| >= 2 ==> p[0] != p[|p|-1]
  }

  // ---------------------------------------------------------------- paths are short

  lemma {:induction false} Pigeonhole(p: seq<Id>, ids: set<Id>)
    requires forall i, j | 0 <= i < j < |p| :: p[i] != p[j]
    requires forall x :: x in p ==> x in ids
    ensures |p| <= |ids|
  {
    if p != [] {
      var last := p[|p|-1];
      assert last in p;
      forall x | x in p[..|p|-1] ensures x in ids - {last} {
        assert x in p;
      }
      Pigeonhole(p[..|p|-1], ids - {last});
    }
  }

  lemma PathIsShort(f: Workflow, guards: Guards, p: seq<Id>)
    requires Acyclic(f, guards) && Path(f, guards, p) && forall x :: x in p ==> x in ActionIds(f)
    ensures |p| <= |ActionIds(f)|
  {
    forall i, j | 0 <= i < j < |p| ensures p[i] != p[j] {
      var q := p[i..j+1];
      forall k | 0 <= k < |q| - 1 ensures Linked(f, guards, q[k], q[k+1]) {
        assert Linked(f, guards, p[i+k], p[i+k+1]);
      }
      assert Path(f, guards, q);
    }
    Pigeonhole(p, ActionIds(f));
  }

  lemma PathExtends(f: Workflow, guards: Guards, p: seq<Id>, x: Id, y: Id)
    requires Path(f, guards, p + [x]) && Linked(f, guards, x, y)
    ensures Path(f, guards, (p + [x]) + [y])
  {
    var q := (p + [x]) + [y];
    forall k | 0 <= k < |q| - 1 ensures Linked(f, guards, q[k], q[k+1]) {
      if k < |p| {
        assert Linked(f, guards, (p + [x])[k], (p + [x])[k+1]);
      }
    }
  }

  // ---------------------------------------------------------------- the budget of guarded branches

  /** How often the guarded branches among the first n can still be taken. */
  function Budget(guards: Guards, counters: seq<nat>, n: nat): nat
    requires n <= |counters|
  {
    if n == 0 then 0
    else
      var i := n - 1;
      Budget(guards, counters, i) + if i in guards && counters[i] < guards[i] then guards[i] - counters[i] else 0
  }

  lemma {:induction false} BudgetFalls(guards: Guards, a: seq<nat>, b: seq<nat>, n: nat, i: nat)
    requires n <= |a| == |b| && forall k | 0 <= k < |a| :: a[k] <= b[k]
    ensures Budget(guards, b, n) <= Budget(guards, a, n)
    ensures i < n && i in guards && a[i] < guards[i] && a[i] < b[i] ==> Budget(guards, b, n) < Budget(guards, a, n)
  {
    if n > 0 {
      BudgetFalls(guards, a, b, n - 1, i);
    }
  }

  lemma {:induction false} ChooseTakes(w: World, f: Workflow, js: seq<nat>, status: string, current: Id, cells: Cells)
    requires Positions(f, js) && |f.branches| == |cells.counters| && current in cells.acc
    ensures var c := Choose(w, f, js, status, current, cells);
            && (forall k | 0 <= k < |f.branches| :: cells.counters[k] <= c.cells.counters[k])
            && (c.taken.Some? ==>
                  var i := c.taken.value;
                  var b := f.branches[i];
                  && i in js && cells.counters[i] < c.cells.counters[i]
                  && b.id in c.cells.acc && c.cells.acc[b.id] == Num(c.cells.counters[i] as real)
                  && Takeable(w, b, status, current, c.cells.acc))
  {
    if js != [] {
      var counted := Count(f, js[0], cells);
      if !Takeable(w, f.branches[js[0]], status, current, counted.acc) {
        ChooseTakes(w, f, js[1..], status, current, counted);
      }
    }
  }

  /** One turn: the action leads nowhere, along an unguarded branch, or along a guarded one that uses up
      budget. */
  lemma TurnSpends(w: World, f: Workflow, guards: Guards, s: State, a: Action)
    requires Fits(f, s) && Guarded(w, f, guards)
    ensures var t := TakeTurn(w, f, s, a, QUIET);
            t.Went? ==>
              var s' := t.step.state;
              && Budget(guards, s'.cells.counters, |f.branches|) <= Budget(guards, s.cells.counters, |f.branches|)
              && (s'.next.Some? && !Linked(f, guards, a.id, s'.next.value) ==>
                    Budget(guards, s'.cells.counters, |f.branches|) < Budget(guards, s.cells.counters, |f.branches|))
  {
    hide Execute, Choose, Outgoing;
    var done := Execute(w, a, s.args, s.resume, s.execution, s.cells.acc);
    if done.Executed? {
      var written := s.cells.(acc := s.cells.acc[a.id := done.result]);
      var js := Outgoing(f, a.id, 0);
      ChooseTakes(w, f, js, done.status, a.id, written);
      var c := Choose(w, f, js, done.status, a.id, written);
      if c.taken.Some? {
        var i := c.taken.value;
        if i in guards {
          assert c.cells.counters[i] <= guards[i];
        } else {
          assert Linked(f, guards, a.id, f.branches[i].destination);
        }
        BudgetFalls(guards, s.cells.counters, c.cells.counters, |f.branches|, i);
      } else {
        BudgetFalls(guards, s.cells.counters, c.cells.counters, |f.branches|, 0);
      }
    }
  }

  // ---------------------------------------------------------------- the bound

  /** How many actions a run started. */
  function Started(trace: seq<Event>): nat
  {
    if trace == [] then 0 else (if trace[0].ActionStarted? then 1 else 0) + Started(trace[1..])
  }

  lemma {:induction false} StartedConcat(a: seq<Event>, b: seq<Event>)
    ensures Started(a + b) == Started(a) + Started(b)
  {
    if a == [] {
      assert a + b == b;
    } else {
      assert (a + b)[1..] == a[1..] + b;
      StartedConcat(a[1..], b);
    }
  }

  lemma {:induction false} BranchEventsStartNothing(trace: seq<Event>)
    requires BranchEvents(trace)
    ensures Started(trace) == 0
  {
    if trace != [] {
      assert trace[0] in trace;
      BranchEventsStartNothing(trace[1..]);
    }
  }

  lemma NothingStarted()
    ensures Started([]) == 0
  {
  }

  lemma ShutdownStartsNothing(s: State)
    ensures Started(Shutdown(s).trace) == 0
  {
    assert Shutdown(s).trace[1..] == [];
  }

  lemma CallStartsOne(w: World, a: Action, device: Option<Value>, checked: Checked<map<string, Value>>, execution: nat)
    ensures var done := Call(w, a, device, checked, execution);
            (done.Threw? || done.Executed?) && Started(done.trace) == 1
  {
    var t := Call(w, a, device, checked, execution).trace;
    assert t == [t[0]] + t[1..] && (|t| == 2 ==> t[1..] == [t[1]] && t[1..][1..] == []);
    assert Started(t[1..]) == 0;
  }

  lemma TurnStartsOne(w: World, f: Workflow, s: State, a: Action)
    requires Fits(f, s)
    ensures match TakeTurn(w, f, s, a, QUIET)
            case Ended(run) => Started(run.trace) <= 1 && !run.outcome.Running?
            case Went(step) => Started(step.trace) == 1
  {
    hide ResolveDevice, CheckedArguments, Call, Choose, Outgoing;
    var device := ResolveDevice(w, a, s.cells.acc);
    if device.Some? {
      var checked := CheckedArguments(w, a, s.args, s.cells.acc);
      if a.trigger.Some? && !s.resume {
        var t := [ActionStarted(a.id, s.execution), TriggerActionAwaitingData(a.id, s.execution)];
        assert t[1..] == [t[1]] && t[1..][1..] == [];
        assert Started(t[1..]) == 0;
      } else {
        CallStartsOne(w, a, device.value, checked, s.execution);
        var done := Call(w, a, device.value, checked, s.execution);
        if done.Executed? {
          ChoiceTrace(w, f, Outgoing(f, a.id, 0), done.status, a.id, Written(s, a, done.result));
          BranchEventsStartNothing(Following(w, f, s, a, done).trace);
          StartedConcat(done.trace, Following(w, f, s, a, done).trace);
        }
      }
    }
  }

  /** What is left of the bound when the current walk has executed `used` actions. */
  function Remaining(size: nat, used: nat, budget: nat): int
  {
    size * (budget + 1) - used
  }

  lemma RemainingFalls(size: nat, used: nat, b: nat, b': nat)
    requires used < size
    ensures Remaining(size, used, b) >= 1
    ensures b' <= b ==> Remaining(size, used + 1, b') + 1 <= Remaining(size, used, b)
    ensures b' < b ==> Remaining(size, 0, b') + 1 <= Remaining(size, used, b)
  {
    assert size * (b + 1) == size * b + size;
    if b' <= b {
      assert size * (b' + 1) <= size * (b + 1);
    }
    if b' < b {
      assert size * (b' + 1) <= size * b;
    }
  }

  /** `p` is the walk along unguarded branches that led to the action the run is about to execute. */
  lemma {:induction false} RunIsBounded(w: World, f: Workflow, guards: Guards, s: State, p: seq<Id>, n: nat)
    requires Fits(f, s) && Guarded(w, f, guards) && Acyclic(f, guards)
    requires (forall x :: x in p ==> x in ActionIds(f)) && Path(f, guards, p)
    requires s.next.Some? ==> Path(f, guards, p + [s.next.value])
    ensures var r := RunFrom(w, f, s, Quiet(n));
            var left := Remaining(|ActionIds(f)|, |p|, Budget(guards, s.cells.counters, |f.branches|));
            Started(r.trace) <= left && (n >= left ==> !r.outcome.Running?)
    decreases n
  {
    hide TakeTurn, Remaining, Acyclic, Guarded, Path, Linked, Budget, Started;
    var size, budget := |ActionIds(f)|, Budget(guards, s.cells.counters, |f.branches|);
    var action := NextAction(f, s);
    if action.None? {
      PathIsShort(f, guards, p);
      RemainingIsNatural(size, |p|, budget);
      ShutdownStartsNothing(s);
    } else {
      var q := p + [action.value.id];
      assert action.value.id in ActionIds(f);
      PathIsShort(f, guards, q);
      RemainingFalls(size, |p|, budget, budget);
      NothingStarted();
      if n > 0 {
        TurnStartsOne(w, f, s, action.value);
        TurnSpends(w, f, guards, s, action.value);
        var t := TakeTurn(w, f, s, action.value, QUIET);
        assert Quiet(n)[1..] == Quiet(n - 1);
        if t.Went? {
          var s' := t.step.state;
          RemainingFalls(size, |p|, budget, Budget(guards, s'.cells.counters, |f.branches|));
          StartedConcat(t.step.trace, RunFrom(w, f, s', Quiet(n - 1)).trace);
          if s'.next.None? || Linked(f, guards, action.value.id, s'.next.value) {
            if s'.next.Some? {
              PathExtends(f, guards, p, action.value.id, s'.next.value);
            }
            RunIsBounded(w, f, guards, s', q, n - 1);
          } else {
            NoPath(f, guards, s'.next.value);
            RunIsBounded(w, f, guards, s', [], n - 1);
          }
        }
      }
    }
  }

  lemma RemainingIsNatural(size: nat, used: nat, b: nat)
    requires used <= size
    ensures Remaining(size, used, b) >= 0
  {
    assert size * (b + 1) == size * b + size;
  }

  lemma NoPath(f: Workflow, guards: Guards, x: Id)
    ensures Path(f, guards, []) && Path(f, guards, [] + [x])
  {
  }

  /** The sum of the guards' bounds. */
  function Total(guards: Guards, n: nat): nat
  {
    if n == 0 then 0 else Total(guards, n - 1) + if n - 1 in guards then guards[n - 1] else 0
  }

  lemma {:induction false} FreshBudget(guards: Guards, counters: seq<nat>, n: nat)
    requires n <= |counters| && forall k | 0 <= k < n :: counters[k] == 0
    ensures Budget(guards, counters, n) == Total(guards, n)
  {
    if n > 0 {
      FreshBudget(guards, counters, n - 1);
    }
  }

  /** If the graph without the guarded branches has no cycle, every uninterrupted run from fresh counters ends,
      having started at most (sum of the bounds + 1) times the number of actions. */
  lemma GuardedLoopsEnd(w: World, f: Workflow, guards: Guards, s: State, n: nat)
    requires Fits(f, s) && Guarded(w, f, guards) && Acyclic(f, guards)
    requires forall k | 0 <= k < |f.branches| :: s.cells.counters[k] == 0
    ensures var r := RunFrom(w, f, s, Quiet(n));
            var bound := |ActionIds(f)| * (Total(guards, |f.branches|) + 1);
            Started(r.trace) <= bound && (n >= bound ==> !r.outcome.Running?)
  {
    hide RunFrom;
    if s.next.Some? {
      NoPath(f, guards, s.next.value);
    }
    FreshBudget(guards, s.cells.counters, |f.branches|);
    RunIsBounded(w, f, guards, s, [], n);
  }

  // ---------------------------------------------------------------- runs in legs

  /** The bound on the actions that one leg starts. */
  function LegBound(f: Workflow, guards: Guards): nat
  {
    |ActionIds(f)| * (Total(guards, |f.branches|) + 1)
  }

  lemma PauseStartsNothing(w: World, f: Workflow, s: State)
    requires Fits(f, s)
    ensures Started(RunFrom(w, f, s, [PAUSE]).trace) == 0
  {
    if NextAction(f, s).Some? {
      PauseEnds(w, f, s);
      assert [WorkflowPaused(NextAction(f, s).value.id)][1..] == [];
    } else {
      ShutdownStartsNothing(s);
    }
  }

  lemma LegIsBounded(w: World, f: Workflow, guards: Guards, s: State, n: nat)
    requires Fits(f, s) && Guarded(w, f, guards) && Acyclic(f, guards)
    requires forall k | 0 <= k < |f.branches| :: s.cells.counters[k] == 0
    ensures Started(RunFrom(w, f, s, Quiet(n) + [PAUSE]).trace) <= LegBound(f, guards)
  {
    hide RunFrom, Started, Guarded, Acyclic;
    GuardedLoopsEnd(w, f, guards, s, n);
    RunConcat(w, f, s, Quiet(n), [PAUSE]);
    var r := RunFrom(w, f, s, Quiet(n));
    if r.outcome.Running? {
      PauseStartsNothing(w, f, r.final);
      StartedConcat(r.trace, RunFrom(w, f, r.final, [PAUSE]).trace);
    }
  }

  lemma OneMore(n: nat, bound: nat)
    ensures (n + 1) * bound == n * bound + bound && (n > 0 ==> bound <= n * bound)
  {
  }

  /** Counters restart on every resume, so a run cut into legs starts at most as many times the actions of an
      uninterrupted one as it has legs; and its last leg ends. */
  lemma {:induction false} CutLoopsEnd(w: World, f: Workflow, guards: Guards, s: State, cuts: seq<nat>)
    requires Fits(f, s) && Guarded(w, f, guards) && Acyclic(f, guards) && cuts != []
    requires forall k | 0 <= k < |f.branches| :: s.cells.counters[k] == 0
    ensures var r := CutRun(w, f, s, cuts);
            && Started(r.trace) <= |cuts| * LegBound(f, guards)
            && (cuts[|cuts|-1] >= LegBound(f, guards) ==> !r.outcome.Running?)
    decreases |cuts|
  {
    hide RunFrom, Started, Guarded, Acyclic, LegBound;
    var bound := LegBound(f, guards);
    OneMore(|cuts| - 1, bound);
    if |cuts| == 1 {
      GuardedLoopsEnd(w, f, guards, s, cuts[0]);
      LegBoundIs(f, guards);
    } else {
      LegIsBounded(w, f, guards, s, cuts[0]);
      PausedLegEnds(w, f, s, cuts[0]);
      var leg := RunFrom(w, f, s, Quiet(cuts[0]) + [PAUSE]);
      if leg.outcome.Paused? {
        var next := ResumedState(f, leg.outcome.at, [], leg.final.cells.acc, leg.final.execution);
        CutLoopsEnd(w, f, guards, next, cuts[1..]);
        StartedConcat(leg.trace, CutRun(w, f, next, cuts[1..]).trace);
      } else {
        OneMore(|cuts|, bound);
      }
    }
  }

  lemma LegBoundIs(f: Workflow, guards: Guards)
    ensures LegBound(f, guards) == |ActionIds(f)| * (Total(guards, |f.branches|) + 1)
  {
  }

  lemma PausedLegEnds(w: World, f: Workflow, s: State, n: nat)
    requires Fits(f, s)
    ensures !RunFrom(w, f, s, Quiet(n) + [PAUSE]).outcome.Running?
  {
    RunConcat(w, f, s, Quiet(n), [PAUSE]);
    hide RunFrom;
    var r := RunFrom(w, f, s, Quiet(n));
    if r.outcome.Running? {
      PauseIsAnEnd(w, f, r.final);
    }
  }

  lemma PauseIsAnEnd(w: World, f: Workflow, s: State)
    requires Fits(f, s)
    ensures !RunFrom(w, f, s, [PAUSE]).outcome.Running?
  {
    if NextAction(f, s).Some? {
      PauseEnds(w, f, s);
    }
  }
}
