/** What the rows of an execution say of its actions, told from the events alone. */
module RowResults {
  import opened Json
  import opened Engine
  import opened Statuses
  import opened Traces

  /** The status that an event gives to the action execution it names. */
  function StatusBy(e: Event): Option<ActionStatusEnum>
  {
    match e
    case ActionArgumentsInvalid(_, _) => Some(ActionFailure)
    case ActionExecutionError(_, _, _, _) => Some(ActionFailure)
    case ActionExecutionSuccess(_, _, _, _) => Some(ActionSuccess)
    case TriggerActionAwaitingData(_, _) => Some(ActionAwaitingData)
    case _ => None
  }

  /** There is a row for that execution of the action, it has that status, and no other row is for that execution. */
  ghost predicate Tells(rows: seq<ActionRow>, row: ActionRow)
  {
    row in rows && forall i | 0 <= i < |rows| && rows[i].execution == row.execution :: rows[i] == row
  }

  predicate EndsAborted(trace: seq<Event>)
  {
    trace != [] && trace[|trace|-1].WorkflowAborted?
  }

  /** The rows there were stay as they are, except that an abort with no action started turns a waiting last one to
      aborted. */
  ghost predicate Stay(before: seq<ActionRow>, after: seq<ActionRow>, trace: seq<Event>)
  {
    && |before| <= |after|
    && forall i | 0 <= i < |before| ::
         after[i] == if EndsAborted(trace) && |after| == |before| == i + 1 && before[i].status.ActionAwaitingData?
                     then before[i].(status := ActionAborted) else before[i]
  }

  ghost predicate NewFrom(before: seq<ActionRow>, after: seq<ActionRow>, n: nat)
  {
    forall i | |before| <= i < |after| :: after[i].execution >= n
  }

  /** Every event with a result is told by the row of its action execution. */
  ghost predicate AllTold(after: seq<ActionRow>, trace: seq<Event>)
  {
    forall e :: e in trace && StatusBy(e).Some? ==> Tells(after, ActionRow(e.execution, e.action, StatusBy(e).value))
  }

  lemma OverEnds(p: Phase, trace: seq<Event>)
    requires p.Over? && AcceptAll(Some(p), trace).Some?
    ensures trace == []
  {
  }

  /** A row appended, settled, for execution n. */
  lemma AppendedTells(before: seq<ActionRow>, row: ActionRow, after: seq<ActionRow>, trace: seq<Event>, n: nat)
    requires Settled(before, n) && row.execution == n && Stay(before + [row], after, trace)
    requires NewFrom(before + [row], after, n + 1) && (row.status.ActionAwaitingData? ==> trace == [])
    ensures Tells(after, row) && Stay(before, after, trace) && NewFrom(before, after, n)
  {
    var middle := before + [row];
    assert after[|before|] == row;
    forall i | 0 <= i < |before| ensures after[i] == before[i] {
      assert after[i] == middle[i];
    }
  }

  lemma BranchesChangeNothing(r: Record, n: nat, e: Event)
    requires Accept(Between(n), e) == Some(Between(n))
    ensures Apply(r, e) == r && StatusBy(e) == None
  {
  }

  lemma StartThenResult(r: Record, n: nat, start: Event, e: Event)
    requires Matches(r, Between(n)) && start.ActionStarted? && Accept(Between(n), start).Some?
    requires Accept(Busy(start.action, n), e).Some?
    ensures StatusBy(e).Some? && e.action == start.action && e.execution == n == start.execution
    ensures Apply(Apply(r, start), e).actions == r.actions + [ActionRow(n, e.action, StatusBy(e).value)]
    ensures e.TriggerActionAwaitingData? || Matches(Apply(Apply(r, start), e), Between(n + 1))
    ensures Accept(Busy(start.action, n), e) ==
            Some(if e.TriggerActionAwaitingData? then Over(e, n + 1) else Between(n + 1))
  {
    IndexOfFresh(r.actions, n);
    var rows := r.actions + [ActionRow(n, start.action, ActionExecuting)];
    assert Apply(r, start).actions == rows;
    assert IndexOf(rows, n) == Some(|r.actions|);
    ApplyMatches(r, Between(n), start);
    ApplyMatches(Apply(r, start), Busy(start.action, n), e);
  }

  lemma {:induction false} RowsFrom(r: Record, n: nat, trace: seq<Event>)
    requires Matches(r, Between(n)) && AcceptAll(Some(Between(n)), trace).Some?
    ensures var rows := ApplyAll(r, trace).actions;
            Stay(r.actions, rows, trace) && NewFrom(r.actions, rows, n) && AllTold(rows, trace)
    decreases |trace|
  {
    if trace != [] {
      var e, rest := trace[0], trace[1..];
      assert Accept(Between(n), e).Some?;
      var p := Accept(Between(n), e).value;
      if p == Between(n) {
        BranchesChangeNothing(r, n, e);
        RowsFrom(r, n, rest);
        assert EndsAborted(trace) == EndsAborted(rest);
      } else if p.Over? {
        OverEnds(p, rest);
      } else {
        RowsAfterStart(r, n, trace);
      }
    }
  }

  lemma {:induction false} RowsAfterStart(r: Record, n: nat, trace: seq<Event>)
    requires Matches(r, Between(n)) && AcceptAll(Some(Between(n)), trace).Some?
    requires trace != [] && trace[0].ActionStarted?
    ensures var rows := ApplyAll(r, trace).actions;
            Stay(r.actions, rows, trace) && NewFrom(r.actions, rows, n) && AllTold(rows, trace)
    decreases |trace|, 0
  {
    var start, tail := trace[0], trace[1..];
    ApplyMatches(r, Between(n), start);
    if tail == [] {
      IndexOfFresh(r.actions, n);
    } else {
      var e, rest := tail[0], tail[1..];
      assert AcceptAll(Some(Busy(start.action, n)), tail).Some?;
      assert AcceptAll(Accept(Busy(start.action, n), e), rest).Some?;
      StartThenResult(r, n, start, e);
      var r2, row := Apply(Apply(r, start), e), ActionRow(n, e.action, StatusBy(e).value);
      assert ApplyAll(r, trace) == ApplyAll(r2, rest);
      if e.TriggerActionAwaitingData? {
        OverEnds(Over(e, n + 1), rest);
      } else {
        RowsFrom(r2, n + 1, rest);
      }
      TwoMore(r.actions, row, ApplyAll(r2, rest).actions, start, e, rest, n);
      assert trace == [start, e] + rest;
      hide *;
    }
  }

  lemma TwoMore(before: seq<ActionRow>, row: ActionRow, after: seq<ActionRow>, start: Event, e: Event,
                rest: seq<Event>, n: nat)
    requires Settled(before, n) && row.execution == n && Stay(before + [row], after, rest)
    requires NewFrom(before + [row], after, n + 1) && (row.status.ActionAwaitingData? ==> rest == [])
    requires start.ActionStarted? && StatusBy(e).Some? && row == ActionRow(e.execution, e.action, StatusBy(e).value)
    requires AllTold(after, rest)
    ensures var trace := [start, e] + rest;
            Stay(before, after, trace) && NewFrom(before, after, n) && AllTold(after, trace)
  {
    AppendedTells(before, row, after, rest, n);
    var trace := [start, e] + rest;
    assert EndsAborted(trace) == EndsAborted(rest) by {
      if rest != [] {
        assert trace[|trace|-1] == rest[|rest|-1];
      }
    }
    hide Tells, EndsAborted;
  }

  /** Over the whole trace of a leg: the rows of earlier legs stay, a waiting last one is aborted with the execution
      if the leg starts nothing, and each action that the leg finished has exactly one row, with the status that its
      result's event gives. */
  lemma RowsTell(r: Record, n: nat, trace: seq<Event>)
    requires Settled(r.actions, n) && AcceptAll(Some(Unstarted(n)), trace).Some?
    ensures var rows := ApplyAll(r, trace).actions;
            Stay(r.actions, rows, trace) && NewFrom(r.actions, rows, n) && AllTold(rows, trace)
  {
    if trace != [] {
      assert Accept(Unstarted(n), trace[0]).Some?;
      RowsFrom(Apply(r, trace[0]), n, trace[1..]);
      assert EndsAborted(trace) == EndsAborted(trace[1..]);
    }
  }

  // ---------------------------------------------------------------- one row each

  ghost predicate OneRowEach(rows: seq<ActionRow>)
  {
    forall i, j | 0 <= i < j < |rows| :: rows[i].execution != rows[j].execution
  }

  ghost predicate HasRow(rows: seq<ActionRow>, n: nat)
  {
    exists i :: 0 <= i < |rows| && rows[i].execution == n
  }

  /** The rows of before are all there, in their places, whatever their statuses. */
  ghost predicate Grown(before: seq<ActionRow>, after: seq<ActionRow>)
  {
    && |before| <= |after|
    && forall i | 0 <= i < |before| ::
         after[i].execution == before[i].execution && after[i].action == before[i].action
  }

  lemma ApplyKeepsRows(r: Record, e: Event)
    requires OneRowEach(r.actions)
    ensures var rows := Apply(r, e).actions;
            && OneRowEach(rows) && Grown(r.actions, rows)
            && forall n :: HasRow(rows, n) <==> HasRow(r.actions, n) || (e.ActionStarted? && e.execution == n)
  {
    var rows := Apply(r, e).actions;
    if |rows| == |r.actions| {
      SameRows(r.actions, rows);
      if e.ActionStarted? {
        var i := IndexOf(r.actions, e.execution).value;
        assert r.actions[i].execution == e.execution;
      }
    } else {
      var row := rows[|r.actions|];
      assert rows == r.actions + [row];
      hide HasRow;
      forall n ensures HasRow(rows, n) <==> HasRow(r.actions, n) || row.execution == n {
        OneMore(r.actions, row, n);
      }
    }
  }

  lemma SameRows(before: seq<ActionRow>, after: seq<ActionRow>)
    requires OneRowEach(before) && |after| == |before|
    requires forall i | 0 <= i < |before| :: after[i].execution == before[i].execution
    ensures OneRowEach(after) && forall n :: HasRow(after, n) <==> HasRow(before, n)
  {
    forall n ensures HasRow(after, n) <==> HasRow(before, n) {
      if i :| 0 <= i < |before| && before[i].execution == n {
        assert after[i].execution == n;
      }
    }
  }

  lemma OneMore(rows: seq<ActionRow>, row: ActionRow, n: nat)
    ensures HasRow(rows + [row], n) <==> HasRow(rows, n) || row.execution == n
  {
    if row.execution == n {
      assert (rows + [row])[|rows|].execution == n;
    }
    if i :| 0 <= i < |rows| && rows[i].execution == n {
      assert (rows + [row])[i].execution == n;
    }
  }

  /** Whatever events come, in whatever order: no two rows are of one action execution, rows keep their places and
      their actions, and those with a row are those that had one or were started. */
  lemma {:induction false} OneRowPerExecution(r: Record, trace: seq<Event>)
    requires OneRowEach(r.actions)
    ensures var rows := ApplyAll(r, trace).actions;
            && OneRowEach(rows) && Grown(r.actions, rows)
            && forall n :: HasRow(rows, n) <==>
                             HasRow(r.actions, n) || exists e :: e in trace && e.ActionStarted? && e.execution == n
    decreases |trace|
  {
    hide Apply, HasRow, OneRowEach;
    if trace != [] {
      ApplyKeepsRows(r, trace[0]);
      OneRowPerExecution(Apply(r, trace[0]), trace[1..]);
      assert forall e :: e in trace <==> e == trace[0] || e in trace[1..];
    }
  }
}
