/** The server's status tables and the event callbacks that drive them. */
module Statuses {
  import opened Json
  import opened Elements
  import opened Engine

  datatype WorkflowStatusEnum = StatusPending | StatusRunning | StatusPaused | StatusAwaitingData
                              | StatusCompleted | StatusAborted

  datatype ActionStatusEnum = ActionExecuting | ActionAwaitingData | ActionSuccess | ActionFailure | ActionAborted

  datatype ActionRow = ActionRow(execution: nat, action: Id, status: ActionStatusEnum)

  /** All that is stored about one execution: its status, its actions' statuses and its saved state. */
  datatype Record = Record(status: WorkflowStatusEnum, actions: seq<ActionRow>, saved: Option<Id>)

  function IndexOf(rows: seq<ActionRow>, execution: nat): (r: Option<nat>)
    ensures r.Some? ==> r.value < |rows| && rows[r.value].execution == execution
    ensures r.None? ==> forall i | 0 <= i < |rows| :: rows[i].execution != execution
  {
    if rows == [] then None
    else if rows[|rows|-1].execution == execution then Some(|rows|-1)
    else IndexOf(rows[..|rows|-1], execution)
  }

  function SetStatus(rows: seq<ActionRow>, execution: nat, status: ActionStatusEnum): seq<ActionRow>
  {
    match IndexOf(rows, execution)
    case None => rows
    case Some(i) => rows[i := rows[i].(status := status)]
  }

  function SetLast(rows: seq<ActionRow>, status: ActionStatusEnum): seq<ActionRow>
  {
    if rows == [] then rows else rows[|rows|-1 := rows[|rows|-1].(status := status)]
  }

  function Aborting(rows: seq<ActionRow>): seq<ActionRow>
  {
    if rows != [] && rows[|rows|-1].status.ActionAwaitingData? then SetLast(rows, ActionAborted) else rows
  }

  function Starting(rows: seq<ActionRow>, action: Id, execution: nat): seq<ActionRow>
  {
    if IndexOf(rows, execution).Some? then SetStatus(rows, execution, ActionExecuting)
    else rows + [ActionRow(execution, action, ActionExecuting)]
  }

  /** What one event does to the record of its execution: the sender saves state before it publishes a pause or
      a wait, and the callbacks of a shutdown or an abort remove it. */
  function Apply(r: Record, e: Event): Record
  {
    match e
    case WorkflowExecutionStart => r.(status := StatusRunning)
    case WorkflowPaused(at) => r.(status := StatusPaused, saved := Some(at))
    case WorkflowAborted => Record(StatusAborted, Aborting(r.actions), None)
    case WorkflowShutdown(_) => r.(status := StatusCompleted, saved := None)
    case ActionStarted(a, n) => r.(actions := Starting(r.actions, a, n))
    case TriggerActionAwaitingData(a, _) =>
      Record(StatusAwaitingData, SetLast(r.actions, ActionAwaitingData), Some(a))
    case ActionArgumentsInvalid(_, n) => r.(actions := SetStatus(r.actions, n, ActionFailure))
    case ActionExecutionError(_, n, _, _) => r.(actions := SetStatus(r.actions, n, ActionFailure))
    case ActionExecutionSuccess(_, n, _, _) => r.(actions := SetStatus(r.actions, n, ActionSuccess))
    case BranchTaken(_) => r
    case BranchNotTaken(_) => r
  }

  function ApplyAll(r: Record, trace: seq<Event>): Record
    decreases |trace|
  {
    if trace == [] then r else ApplyAll(Apply(r, trace[0]), trace[1..])
  }

  lemma {:induction false} ApplyConcat(r: Record, a: seq<Event>, b: seq<Event>)
    ensures ApplyAll(r, a + b) == ApplyAll(ApplyAll(r, a), b)
    decreases |a|
  {
    if a == [] {
      assert a + b == b;
    } else {
      assert (a + b)[1..] == a[1..] + b;
      ApplyConcat(Apply(r, a[0]), a[1..], b);
    }
  }

  /** The execution database: workflow statuses with their action statuses, and saved workflows. */
  class ResultsTables {
    var status: map<Id, WorkflowStatusEnum>
    var actions: map<Id, seq<ActionRow>>
    var saved: map<Id, Id>

    ghost predicate Valid()
      reads this
    {
      actions.Keys == status.Keys
    }

    /** The record of one execution. */
    ghost function RecordOf(id: Id): Record
      requires Valid() && id in status
      reads this
    {
      Record(status[id], actions[id], if id in saved then Some(saved[id]) else None)
    }

    constructor ()
      ensures Valid() && status == map[] && saved == map[]
    {
      status, actions, saved := map[], map[], map[];
    }

    /** __workflow_pending: a known execution goes back to pending, a new one gets its row. */
    method WorkflowPending(id: Id)
      requires Valid()
      modifies this
      ensures Valid() && status == old(status)[id := StatusPending] && saved == old(saved)
      ensures actions == if id in old(actions) then old(actions) else old(actions)[id := []]
    {
      if id !in status {
        actions := actions[id := []];
      }
      status := status[id := StatusPending];
    }

    method SetRow(id: Id, execution: nat, value: ActionStatusEnum)
      requires Valid() && id in status
      modifies this`actions
      ensures Valid() && actions == old(actions)[id := SetStatus(old(actions)[id], execution, value)]
    {
      var rows := actions[id];
      var i := |rows|;
      assert rows[..|rows|] == rows;
      while i > 0 && rows[i-1].execution != execution
        invariant 0 <= i <= |rows|
        invariant IndexOf(rows, execution) == IndexOf(rows[..i], execution)
      {
        i := i - 1;
        assert rows[..i+1][..i] == rows[..i];
      }
      if i > 0 {
        actions := actions[id := rows[i-1 := rows[i-1].(status := value)]];
      } else {
        actions := actions[id := rows];
      }
    }

    /** Delivers one event: the sender's saving of state, then the server's callback. */
    method Handle(id: Id, e: Event)
      requires Valid() && id in status
      modifies this
      ensures Valid() && status.Keys == old(status.Keys)
      ensures RecordOf(id) == Apply(old(RecordOf(id)), e)
      ensures forall x :: x in status && x != id ==> RecordOf(x) == old(RecordOf(x))
    {
      match e {
        case WorkflowExecutionStart =>
          status := status[id := StatusRunning];
        case WorkflowPaused(at) =>
          saved := saved[id := at];
          status := status[id := StatusPaused];
        case WorkflowAborted =>
          status := status[id := StatusAborted];
          actions := actions[id := Aborting(actions[id])];
          saved := saved - {id};
        case WorkflowShutdown(_) =>
          status := status[id := StatusCompleted];
          saved := saved - {id};
        case ActionStarted(a, n) =>
          if IndexOf(actions[id], n).Some? {
            SetRow(id, n, ActionExecuting);
          } else {
            actions := actions[id := actions[id] + [ActionRow(n, a, ActionExecuting)]];
          }
        case TriggerActionAwaitingData(a, _) =>
          saved := saved[id := a];
          status := status[id := StatusAwaitingData];
          actions := actions[id := SetLast(actions[id], ActionAwaitingData)];
        case ActionArgumentsInvalid(_, n) =>
          SetRow(id, n, ActionFailure);
        case ActionExecutionError(_, n, _, _) =>
          SetRow(id, n, ActionFailure);
        case ActionExecutionSuccess(_, n, _, _) =>
          SetRow(id, n, ActionSuccess);
        case BranchTaken(_) =>
        case BranchNotTaken(_) =>
      }
    }

    /** Delivers the events of a run in order. */
    method HandleAll(id: Id, trace: seq<Event>)
      requires Valid() && id in status
      modifies this
      ensures Valid() && status.Keys == old(status.Keys)
      ensures RecordOf(id) == ApplyAll(old(RecordOf(id)), trace)
      ensures forall x :: x in status && x != id ==> RecordOf(x) == old(RecordOf(x))
    {
      for i := 0 to |trace|
        invariant Valid() && status.Keys == old(status.Keys)
        invariant ApplyAll(RecordOf(id), trace[i..]) == ApplyAll(old(RecordOf(id)), trace)
        invariant forall x :: x in status && x != id ==> RecordOf(x) == old(RecordOf(x))
      {
        assert trace[i..][1..] == trace[i+1..];
        Handle(id, trace[i]);
      }
    }
  }
}
