/** The server's commands over its status table, its saved states and its request queue. */
module Commands {
  import opened Json
  import opened Elements
  import opened Statuses

  /** A request for a run. The ticket is the identity of the message: how many were pushed before it. */
  datatype Request = Request(ticket: nat, execution: Id, workflow: Id, start: Option<Id>, resume: bool)

  datatype Control = PauseMessage(execution: Id) | AbortMessage(execution: Id)

  datatype Row = Row(status: WorkflowStatusEnum, workflow: Id)

  /** The workflow table: the start action of each workflow, and which workflows are valid. */
  datatype Database = Database(starts: map<Id, Id>, valid: set<Id>)

  /** What the server holds: status rows, saved states, the queue with its left end first, messages sent. */
  datatype Server = Server(rows: map<Id, Row>, saved: map<Id, Id>, queue: seq<Request>, sent: seq<Control>, issued: nat)

  predicate HasStatus(srv: Server, e: Id, status: WorkflowStatusEnum)
  {
    e in srv.rows && srv.rows[e].status == status
  }

  function WithStatus(srv: Server, e: Id, status: WorkflowStatusEnum): Server
    requires e in srv.rows
  {
    srv.(rows := srv.rows[e := srv.rows[e].(status := status)])
  }

  /** Marks an execution pending and pushes a request for it. */
  function Enqueue(srv: Server, e: Id, workflow: Id, start: Option<Id>, resume: bool): Server
  {
    srv.(rows := srv.rows[e := Row(StatusPending, if e in srv.rows then srv.rows[e].workflow else workflow)],
         queue := [Request(srv.issued, e, workflow, start, resume)] + srv.queue,
         issued := srv.issued + 1)
  }

  function OnExecute(db: Database, srv: Server, e: Id, workflow: Id, start: Option<Id>, resume: bool): Server
  {
    if workflow in db.starts then Enqueue(srv, e, workflow, start, resume) else srv
  }

  function OnPause(srv: Server, e: Id): Server
  {
    if HasStatus(srv, e, StatusRunning) then srv.(sent := srv.sent + [PauseMessage(e)]) else srv
  }

  predicate Resumable(db: Database, srv: Server, e: Id)
  {
    HasStatus(srv, e, StatusPaused) && srv.rows[e].workflow in db.starts
  }

  function OnResume(db: Database, srv: Server, e: Id): Server
  {
    if Resumable(db, srv, e) then
      var workflow := srv.rows[e].workflow;
      Enqueue(srv, e, workflow, Some(if e in srv.saved then srv.saved[e] else db.starts[workflow]), true)
    else srv
  }

  predicate Stoppable(srv: Server, e: Id)
  {
    e in srv.rows && srv.rows[e].status in {StatusPending, StatusPaused, StatusAwaitingData}
  }

  function OnAbort(srv: Server, e: Id): Server
  {
    if Stoppable(srv, e) then WithStatus(srv, e, StatusAborted).(saved := srv.saved - {e})
    else if HasStatus(srv, e, StatusRunning) then srv.(sent := srv.sent + [AbortMessage(e)])
    else srv
  }

  predicate Triggerable(db: Database, srv: Server, e: Id)
  {
    HasStatus(srv, e, StatusAwaitingData) && e in srv.saved && srv.rows[e].workflow in db.starts
  }

  /** Data sent to a waiting trigger; `holds` is the verdict of the trigger's condition. */
  function OnTrigger(db: Database, srv: Server, e: Id, holds: bool): Server
  {
    if Triggerable(db, srv, e) && holds then Enqueue(srv, e, srv.rows[e].workflow, Some(srv.saved[e]), true) else srv
  }

  /** The server's commands as methods over its tables and its queue. */
  class MultiprocessedExecutor {
    const db: Database
    var rows: map<Id, Row>
    var saved: map<Id, Id>
    var queue: seq<Request>
    var sent: seq<Control>
    var issued: nat

    function Abstract(): Server
      reads this
    {
      Server(rows, saved, queue, sent, issued)
    }

    constructor (db: Database)
      ensures this.db == db && Abstract() == Server(map[], map[], [], [], 0)
    {
      this.db := db;
      rows, saved, queue, sent, issued := map[], map[], [], [], 0;
    }

    /** The callback of the pending event. */
    method MarkPending(e: Id, workflow: Id)
      modifies this`rows
      ensures rows == old(rows)[e := Row(StatusPending, if e in old(rows) then old(rows)[e].workflow else workflow)]
    {
      if e in rows {
        rows := rows[e := rows[e].(status := StatusPending)];
      } else {
        rows := rows[e := Row(StatusPending, workflow)];
      }
    }

    method AddWorkflowToQueue(e: Id, workflow: Id, start: Option<Id>, resume: bool)
      modifies this`queue, this`issued
      ensures queue == [Request(old(issued), e, workflow, start, resume)] + old(queue) && issued == old(issued) + 1
    {
      queue := [Request(issued, e, workflow, start, resume)] + queue;
      issued := issued + 1;
    }

    /** `uuid` is the id drawn when none is given. */
    method ExecuteWorkflow(workflow: Id, given: Option<Id>, uuid: Id, start: Option<Id>, resume: bool)
      returns (e: Option<Id>)
      modifies this
      ensures var id := if given.Some? then given.value else uuid;
              Abstract() == OnExecute(db, old(Abstract()), id, workflow, start, resume)
              && e == if workflow in db.starts then Some(id) else None
      ensures saved == old(saved) && sent == old(sent)
      ensures e.None? ==> rows == old(rows) && queue == old(queue) && issued == old(issued)
      ensures e.Some? ==>
                && e.value in rows && rows[e.value].status == StatusPending
                && rows - {e.value} == old(rows) - {e.value}
                && queue == [Request(old(issued), e.value, workflow, start, resume)] + old(queue)
    {
      if workflow !in db.starts {
        return None;
      }
      var id := if given.Some? then given.value else uuid;
      MarkPending(id, workflow);
      AddWorkflowToQueue(id, workflow, start, resume);
      e := Some(id);
    }

    method PauseWorkflow(e: Id) returns (ok: bool)
      modifies this`sent
      ensures Abstract() == OnPause(old(Abstract()), e)
      ensures ok <==> e in rows && rows[e].status == StatusRunning
      ensures sent == if ok then old(sent) + [PauseMessage(e)] else old(sent)
    {
      if e in rows && rows[e].status == StatusRunning {
        sent := sent + [PauseMessage(e)];
        ok := true;
      } else {
        ok := false;
      }
    }

    method ResumeWorkflow(e: Id) returns (ok: bool)
      modifies this
      ensures Abstract() == OnResume(db, old(Abstract()), e)
      ensures ok <==> e in old(rows) && old(rows)[e].status == StatusPaused && old(rows)[e].workflow in db.starts
      ensures saved == old(saved) && sent == old(sent)
      ensures !ok ==> rows == old(rows) && queue == old(queue)
      ensures ok ==>
                && rows == old(rows)[e := Row(StatusPending, old(rows)[e].workflow)]
                && var start := if e in saved then saved[e] else db.starts[rows[e].workflow];
                   queue == [Request(old(issued), e, rows[e].workflow, Some(start), true)] + old(queue)
    {
      if e in rows && rows[e].status == StatusPaused && rows[e].workflow in db.starts {
        var workflow := rows[e].workflow;
        var start := if e in saved then saved[e] else db.starts[workflow];
        var _ := ExecuteWorkflow(workflow, Some(e), e, Some(start), true);
        ok := true;
      } else {
        ok := false;
      }
    }

    method AbortWorkflow(e: Id) returns (ok: bool)
      modifies this
      ensures Abstract() == OnAbort(old(Abstract()), e)
      ensures ok <==> e in old(rows)
      ensures queue == old(queue) && rows - {e} == old(rows) - {e} && saved - {e} == old(saved) - {e}
      ensures ok ==>
                var status := old(rows)[e].status;
                && e in rows
                && (if status.StatusPending? || status.StatusPaused? || status.StatusAwaitingData? then
                      rows[e].status == StatusAborted && e !in saved && sent == old(sent)
                    else rows == old(rows) && saved == old(saved)
                         && sent == if status.StatusRunning? then old(sent) + [AbortMessage(e)] else old(sent))
    {
      if e in rows {
        var status := rows[e].status;
        if status == StatusPending || status == StatusPaused || status == StatusAwaitingData {
          rows := rows[e := rows[e].(status := StatusAborted)];
          saved := saved - {e};
        } else if status == StatusRunning {
          sent := sent + [AbortMessage(e)];
        }
        ok := true;
      } else {
        ok := false;
      }
    }

    /** The endpoint that sends data to triggers only lets waiting executions through. */
    method ResumeTriggerStep(e: Id, holds: bool) returns (ok: bool)
      modifies this
      ensures Abstract() == OnTrigger(db, old(Abstract()), e, holds)
      ensures ok <==> && e in old(rows) && old(rows)[e].status == StatusAwaitingData && e in old(saved)
                      && old(rows)[e].workflow in db.starts && holds
      ensures saved == old(saved) && sent == old(sent)
      ensures !ok ==> rows == old(rows) && queue == old(queue)
      ensures ok ==>
                && rows == old(rows)[e := Row(StatusPending, old(rows)[e].workflow)]
                && queue == [Request(old(issued), e, rows[e].workflow, Some(saved[e]), true)] + old(queue)
    {
      ok := false;
      if e in rows && rows[e].status == StatusAwaitingData && e in saved && rows[e].workflow in db.starts {
        if holds {
          var _ := ExecuteWorkflow(rows[e].workflow, Some(e), e, Some(saved[e]), true);
          ok := true;
        }
      }
    }
  }
}
