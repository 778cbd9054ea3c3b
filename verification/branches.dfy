/** Which branch a run takes, and what examining branches leaves in the accumulator. */
module Branches {
  import opened Json
  import opened Elements
  import opened Engine

  /** The order of examination: priority first, then position in the workflow. */
  predicate Before(f: Workflow, i: nat, j: nat)
    requires i < |f.branches| && j < |f.branches|
  {
    f.branches[i].priority < f.branches[j].priority || (f.branches[i].priority == f.branches[j].priority && i < j)
  }

  ghost predicate InOrder(f: Workflow, js: seq<nat>)
    requires Positions(f, js)
  {
    forall a, b | 0 <= a < b < |js| :: Before(f, js[a], js[b])
  }

  lemma {:induction false} InsertKeepsOrder(f: Workflow, i: nat, sorted: seq<nat>)
    requires i < |f.branches| && Positions(f, sorted) && InOrder(f, sorted)
    requires forall k | 0 <= k < |sorted| :: i < sorted[k]
    ensures InOrder(f, StableInsert(f, i, sorted))
  {
    if sorted != [] && f.branches[i].priority > f.branches[sorted[0]].priority {
      var rest := StableInsert(f, i, sorted[1..]);
      InsertKeepsOrder(f, i, sorted[1..]);
      StableInsertMembers(f, i, sorted[1..]);
      forall k | 0 <= k < |rest|
        ensures Before(f, sorted[0], rest[k])
      {
        assert rest[k] in rest;
        if rest[k] != i {
          var m :| 0 <= m < |sorted[1..]| && sorted[1..][m] == rest[k];
          assert sorted[m + 1] == rest[k];
        }
      }
    }
  }

  /** The branches leaving an action come in (priority, position) order; membership is in the contract of
      Outgoing, so the order is determined completely. */
  lemma {:induction false} OutgoingInOrder(f: Workflow, source: Id, n: nat)
    requires n <= |f.branches|
    ensures InOrder(f, Outgoing(f, source, n))
    decreases |f.branches| - n
  {
    if n < |f.branches| {
      OutgoingInOrder(f, source, n + 1);
      var rest := Outgoing(f, source, n + 1);
      if f.branches[n].source == source {
        forall k | 0 <= k < |rest| ensures n < rest[k] { assert rest[k] in rest; }
        InsertKeepsOrder(f, n, rest);
      }
    }
  }

  /** The cells after the given branches have been counted one after another. */
  function CountAll(f: Workflow, js: seq<nat>, cells: Cells): (r: Cells)
    requires Positions(f, js) && |cells.counters| == |f.branches|
    ensures |r.counters| == |f.branches| && cells.acc.Keys <= r.acc.Keys
  {
    if js == [] then cells else CountAll(f, js[1..], Count(f, js[0], cells))
  }

  /** Whether the k-th candidate is taken when it and all before it have been counted. */
  ghost predicate TakenAt(w: World, f: Workflow, candidates: seq<nat>, k: nat, status: string, current: Id,
                          cells: Cells)
    requires Positions(f, candidates) && k < |candidates|
    requires |cells.counters| == |f.branches| && current in cells.acc
  {
    Takeable(w, f.branches[candidates[k]], status, current, CountAll(f, candidates[..k+1], cells).acc)
  }

  /** Whether judging the k-th candidate raises when it and all before it have been counted. */
  ghost predicate BreaksAt(w: World, f: Workflow, candidates: seq<nat>, k: nat, status: string, current: Id,
                           cells: Cells)
    requires Positions(f, candidates) && k < |candidates|
    requires |cells.counters| == |f.branches| && current in cells.acc
  {
    Breaks(w, f.branches[candidates[k]], status, current, CountAll(f, candidates[..k+1], cells).acc)
  }

  lemma CountAllFromSecond(f: Workflow, candidates: seq<nat>, k: nat, cells: Cells)
    requires Positions(f, candidates) && k < |candidates| && |cells.counters| == |f.branches|
    ensures CountAll(f, candidates[..k+1], cells) == CountAll(f, candidates[1..][..k], Count(f, candidates[0], cells))
  {
    assert candidates[..k+1][1..] == candidates[1..][..k];
  }

  /** The choice is a prefix of the candidates counted, its last one the branch taken or the one that raised. */
  ghost predicate CountsPrefix(f: Workflow, candidates: seq<nat>, cells: Cells, c: Choice)
    requires Positions(f, candidates) && |cells.counters| == |f.branches|
  {
    && c.examined <= candidates
    && c.cells == CountAll(f, c.examined, cells)
    && (if c.taken.None? && !c.raised then c.examined == candidates else 0 < |c.examined|)
    && (c.taken.Some? ==> c.taken.value == candidates[|c.examined|-1])
  }

  lemma CountsOneMore(f: Workflow, candidates: seq<nat>, cells: Cells, rest: Choice, trace: seq<Event>)
    requires Positions(f, candidates) && |cells.counters| == |f.branches| && candidates != []
    requires CountsPrefix(f, candidates[1..], Count(f, candidates[0], cells), rest)
    ensures CountsPrefix(f, candidates, cells,
                         Choice(rest.taken, rest.cells, trace, [candidates[0]] + rest.examined, rest.raised))
  {
    hide Count;
    assert candidates == [candidates[0]] + candidates[1..];
    assert ([candidates[0]] + rest.examined)[1..] == rest.examined;
  }

  lemma CountsOne(f: Workflow, candidates: seq<nat>, cells: Cells, trace: seq<Event>, raised: bool)
    requires Positions(f, candidates) && |cells.counters| == |f.branches| && candidates != []
    ensures var taken := if raised then None else Some(candidates[0]);
            CountsPrefix(f, candidates, cells,
                         Choice(taken, Count(f, candidates[0], cells), trace, [candidates[0]], raised))
  {
    hide Count;
    assert [candidates[0]][1..] == [];
    assert CountAll(f, [candidates[0]], cells) == CountAll(f, [], Count(f, candidates[0], cells));
  }

  lemma {:induction false} ExaminesPrefix(w: World, f: Workflow, candidates: seq<nat>, status: string, current: Id,
                                          cells: Cells)
    requires Positions(f, candidates) && |cells.counters| == |f.branches| && current in cells.acc
    ensures CountsPrefix(f, candidates, cells, Choose(w, f, candidates, status, current, cells))
  {
    if candidates != [] {
      var counted := Count(f, candidates[0], cells);
      assert current in counted.acc;
      hide Takeable, Breaks, CountsPrefix, Count;
      if Takeable(w, f.branches[candidates[0]], status, current, counted.acc) {
        CountsOne(f, candidates, cells, [BranchTaken(candidates[0])], false);
      } else if Breaks(w, f.branches[candidates[0]], status, current, counted.acc) {
        CountsOne(f, candidates, cells, [], true);
      } else {
        ExaminesPrefix(w, f, candidates[1..], status, current, counted);
        CountsOneMore(f, candidates, cells, Choose(w, f, candidates[1..], status, current, counted),
                      Choose(w, f, candidates, status, current, cells).trace);
      }
    }
  }

  lemma TakenDoesNotBreak(w: World, b: Edge, status: string, current: Id, acc: Accumulator)
    requires current in acc && Takeable(w, b, status, current, acc)
    ensures !Breaks(w, b, status, current, acc)
  {
  }

  lemma {:induction false} ExaminedVerdict(w: World, f: Workflow, candidates: seq<nat>, status: string, current: Id,
                                           cells: Cells, k: nat)
    requires Positions(f, candidates) && |cells.counters| == |f.branches| && current in cells.acc
    requires k < |Choose(w, f, candidates, status, current, cells).examined| <= |candidates|
    ensures var c := Choose(w, f, candidates, status, current, cells);
            && (TakenAt(w, f, candidates, k, status, current, cells) <==> c.taken.Some? && k == |c.examined| - 1)
            && (BreaksAt(w, f, candidates, k, status, current, cells) <==> c.raised && k == |c.examined| - 1)
  {
    var counted := Count(f, candidates[0], cells);
    assert current in counted.acc;
    CountAllFromSecond(f, candidates, k, cells);
    hide Takeable, Breaks, Count;
    assert candidates[1..][..0] == [];
    if Takeable(w, f.branches[candidates[0]], status, current, counted.acc) {
      TakenDoesNotBreak(w, f.branches[candidates[0]], status, current, counted.acc);
    } else if !Breaks(w, f.branches[candidates[0]], status, current, counted.acc) {
      ExaminesPrefix(w, f, candidates[1..], status, current, counted);
      if k > 0 {
        ExaminedVerdict(w, f, candidates[1..], status, current, counted, k - 1);
      }
    }
  }

  /** The choice is the first candidate that is taken, each judged on the accumulator as the candidates before
      it and its own count leave it; exactly those up to the chosen one are counted. Judging stops at the first
      candidate that raises, too. */
  lemma ChoosesFirst(w: World, f: Workflow, candidates: seq<nat>, status: string, current: Id, cells: Cells)
    requires Positions(f, candidates) && |cells.counters| == |f.branches| && current in cells.acc
    ensures var c := Choose(w, f, candidates, status, current, cells);
            && c.examined <= candidates
            && c.cells == CountAll(f, c.examined, cells)
            && (c.taken.None? && !c.raised ==> c.examined == candidates)
            && (c.taken.Some? ==> c.examined != [] && c.taken.value == c.examined[|c.examined|-1])
            && (c.raised ==> c.examined != [])
            && forall k: nat | k < |c.examined| ::
                 && (TakenAt(w, f, candidates, k, status, current, cells) <==> c.taken.Some? && k == |c.examined| - 1)
                 && (BreaksAt(w, f, candidates, k, status, current, cells) <==> c.raised && k == |c.examined| - 1)
  {
    ExaminesPrefix(w, f, candidates, status, current, cells);
    var c := Choose(w, f, candidates, status, current, cells);
    forall k: nat | k < |c.examined|
      ensures TakenAt(w, f, candidates, k, status, current, cells) <==> c.taken.Some? && k == |c.examined| - 1
      ensures BreaksAt(w, f, candidates, k, status, current, cells) <==> c.raised && k == |c.examined| - 1
    {
      ExaminedVerdict(w, f, candidates, status, current, cells, k);
    }
  }

  ghost predicate BranchEvents(trace: seq<Event>)
  {
    forall e :: e in trace ==> e.BranchTaken? || e.BranchNotTaken?
  }

  /** Choosing sends nothing but branch events. */
  lemma {:induction false} ChoiceTrace(w: World, f: Workflow, js: seq<nat>, status: string, current: Id, cells: Cells)
    requires Positions(f, js) && |f.branches| == |cells.counters| && current in cells.acc
    ensures BranchEvents(Choose(w, f, js, status, current, cells).trace)
  {
    if js != [] {
      hide Takeable, Breaks;
      var counted := Count(f, js[0], cells);
      if !Takeable(w, f.branches[js[0]], status, current, counted.acc)
         && !Breaks(w, f.branches[js[0]], status, current, counted.acc) {
        ChoiceTrace(w, f, js[1..], status, current, counted);
      }
    }
  }

  // ---------------------------------------------------------------- whole runs

  function Occurrences(js: seq<nat>, i: nat): nat
  {
    if js == [] then 0 else (if js[0] == i then 1 else 0) + Occurrences(js[1..], i)
  }

  lemma {:induction false} OccurrencesConcat(a: seq<nat>, b: seq<nat>, i: nat)
    ensures Occurrences(a + b, i) == Occurrences(a, i) + Occurrences(b, i)
  {
    if a == [] {
      assert a + b == b;
    } else {
      assert (a + b)[1..] == a[1..] + b;
      OccurrencesConcat(a[1..], b, i);
    }
  }

  /** No two branches share an id, and none shares the id of an action. */
  ghost predicate DistinctIds(f: Workflow)
  {
    && (forall i, j | 0 <= i < j < |f.branches| :: f.branches[i].id != f.branches[j].id)
    && (forall a, i | a in f.actions && 0 <= i < |f.branches| :: a.id != f.branches[i].id)
  }

  /** The entry of branch i after `js` were counted: the new count if it is among them, untouched otherwise. */
  ghost predicate Recorded(f: Workflow, js: seq<nat>, i: nat, before: Cells, acc: Accumulator, counters: seq<nat>)
    requires i < |f.branches| == |before.counters| == |counters|
  {
    var id := f.branches[i].id;
    && counters[i] == before.counters[i] + Occurrences(js, i)
    && (Occurrences(js, i) > 0 ==> id in acc && acc[id] == Num(counters[i] as real))
    && (Occurrences(js, i) == 0 ==> (id in acc <==> id in before.acc) && (id in acc ==> acc[id] == before.acc[id]))
  }

  lemma {:induction false} ChooseRecords(w: World, f: Workflow, candidates: seq<nat>, status: string, current: Id,
                                         cells: Cells, i: nat)
    requires Positions(f, candidates) && |cells.counters| == |f.branches| && current in cells.acc
    requires DistinctIds(f) && i < |f.branches|
    ensures var c := Choose(w, f, candidates, status, current, cells);
            Recorded(f, c.examined, i, cells, c.cells.acc, c.cells.counters)
  {
    if candidates != [] {
      var j := candidates[0];
      var counted := Count(f, j, cells);
      assert i != j ==> f.branches[i].id != f.branches[j].id;
      assert [j][1..] == [];
      if !Takeable(w, f.branches[j], status, current, counted.acc) {
        var rest := Choose(w, f, candidates[1..], status, current, counted);
        ChooseRecords(w, f, candidates[1..], status, current, counted, i);
        assert ([j] + rest.examined)[1..] == rest.examined;
      }
    }
  }

  /** The accumulator a run ends with; the shutdown event carries it before it is cleared. */
  function LastAccumulator(r: Run): Accumulator
  {
    if r.outcome.Completed? && r.trace != [] && r.trace[|r.trace|-1].WorkflowShutdown?
    then r.trace[|r.trace|-1].data
    else r.final.cells.acc
  }

  /** A result written under an action's id touches no branch's entry. */
  lemma WriteRecords(f: Workflow, s: State, a: Action, result: Value, i: nat)
    requires Engine.Fits(f, s) && a in f.actions && DistinctIds(f) && i < |f.branches|
    ensures Recorded(f, [], i, s.cells, Written(s, a, result).acc, s.cells.counters)
    ensures Recorded(f, [], i, s.cells, s.cells.acc, s.cells.counters)
  {
  }

  lemma AfterRecords(w: World, f: Workflow, s: State, a: Action, done: Done, i: nat)
    requires Engine.Fits(f, s) && a in f.actions && DistinctIds(f) && i < |f.branches| && done.Executed?
    ensures var step := After(w, f, s, a, done);
            Recorded(f, step.examined, i, s.cells, step.state.cells.acc, step.state.cells.counters)
  {
    hide Choose, Outgoing;
    WriteRecords(f, s, a, done.result, i);
    var written := Written(s, a, done.result);
    var c := Following(w, f, s, a, done);
    ChooseRecords(w, f, Outgoing(f, a.id, 0), done.status, a.id, written, i);
    RecordsCompose(f, [], c.examined, i, s.cells, written, c.cells.acc, c.cells.counters);
    assert [] + c.examined == c.examined;
  }

  lemma StepRecords(w: World, f: Workflow, s: State, a: Action, flags: Flags, i: nat)
    requires Engine.Fits(f, s) && a in f.actions && DistinctIds(f) && i < |f.branches|
    ensures match TakeTurn(w, f, s, a, flags)
            case Went(step) => Recorded(f, step.examined, i, s.cells, step.state.cells.acc, step.state.cells.counters)
            case Ended(run) => !run.outcome.Completed?
                               && Recorded(f, run.examined, i, s.cells, run.final.cells.acc, run.final.cells.counters)
  {
    hide Execute, After, Recorded, Following;
    var done := Execute(w, a, s.args, s.resume, s.execution, s.cells.acc);
    match done {
      case Threw(_, written) => WriteRecords(f, s, a, if written.Some? then written.value else Null, i);
      case Executed(_, result, _) =>
        WriteRecords(f, s, a, result, i);
        AfterRecords(w, f, s, a, done, i);
      case _ => WriteRecords(f, s, a, Null, i);
    }
    WriteRecords(f, s, a, Null, i);
  }

  lemma RecordsCompose(f: Workflow, js: seq<nat>, ks: seq<nat>, i: nat, c0: Cells, c1: Cells, acc: Accumulator,
                       counters: seq<nat>)
    requires i < |f.branches| == |c0.counters| == |c1.counters| == |counters|
    requires Recorded(f, js, i, c0, c1.acc, c1.counters) && Recorded(f, ks, i, c1, acc, counters)
    ensures Recorded(f, js + ks, i, c0, acc, counters)
  {
    OccurrencesConcat(js, ks, i);
  }

  /** Over a whole run the entry of each examined branch is the number of times it was examined since its
      counter was loaded, and the entry of every other branch is what it was. */
  lemma {:induction false} RunRecordsExaminations(w: World, f: Workflow, s: State, schedule: seq<Flags>, i: nat)
    requires Engine.Fits(f, s) && DistinctIds(f) && i < |f.branches|
    ensures var r := RunFrom(w, f, s, schedule);
            Recorded(f, r.examined, i, s.cells, LastAccumulator(r), r.final.cells.counters)
    decreases |schedule|
  {
    hide TakeTurn;
    var action := NextAction(f, s);
    if action.Some? && schedule != [] {
      StepRecords(w, f, s, action.value, schedule[0], i);
      var turn := TakeTurn(w, f, s, action.value, schedule[0]);
      if turn.Went? {
        var rest := RunFrom(w, f, turn.step.state, schedule[1..]);
        RunRecordsExaminations(w, f, turn.step.state, schedule[1..], i);
        RecordsCompose(f, turn.step.examined, rest.examined, i, s.cells, turn.step.state.cells, LastAccumulator(rest),
                       rest.final.cells.counters);
        RunEndsTrace(w, f, turn.step.state, schedule[1..]);
      }
    }
  }

  lemma TurnNotCompleted(w: World, f: Workflow, s: State, a: Action, flags: Flags)
    requires Engine.Fits(f, s)
    ensures TakeTurn(w, f, s, a, flags).Ended? ==> !TakeTurn(w, f, s, a, flags).run.outcome.Completed?
  {
    hide Execute, After, Following;
  }

  lemma {:induction false} RunEndsTrace(w: World, f: Workflow, s: State, schedule: seq<Flags>)
    requires Engine.Fits(f, s)
    ensures var r := RunFrom(w, f, s, schedule);
            r.outcome.Completed? ==> r.trace != [] && r.trace[|r.trace|-1].WorkflowShutdown?
    decreases |schedule|
  {
    hide TakeTurn;
    var action := NextAction(f, s);
    if action.Some? && schedule != [] {
      TurnNotCompleted(w, f, s, action.value, schedule[0]);
      var turn := TakeTurn(w, f, s, action.value, schedule[0]);
      if turn.Went? {
        RunEndsTrace(w, f, turn.step.state, schedule[1..]);
      }
    }
  }
}
