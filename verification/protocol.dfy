/** The server and its workers as a state machine: commands, the request queue, worker runs, and control
    messages, interleaved in any order. A worker's status check and its start event are one step, and events
    are applied to the tables as they are emitted. */
module Protocol {
  import opened Json
  import opened Elements
  import opened Statuses
  import opened Commands

  /** A run in a worker: the action at its boundary and its control flags. */
  datatype LiveRun = LiveRun(at: Id, pause: bool, abort: bool)

  datatype Taking = Taking(request: Request, worker: string)

  /** The server, the workers, and history variables: what was pushed, what was taken by whom, at which action
      each execution last stopped, and the executions of which a run ended without a closing event. */
  datatype System = System(server: Server, accepted: set<Request>, live: map<Request, LiveRun>, finished: set<Request>,
                           pushed: seq<Request>, taken: seq<Taking>, stopped: map<Id, Id>, crashed: set<Id>)

  datatype Ending = EndPaused | EndAborted | EndAwaiting | EndCompleted | EndCrashed

  datatype Step =
    | Execute(execution: Id, workflow: Id, start: Option<Id>)
    | Pause(execution: Id)
    | Resume(execution: Id)
    | Abort(execution: Id)
    | Trigger(execution: Id, holds: bool)
    | Pop(worker: string)
    | Begin(request: Request)
    | Deliver(message: nat, request: Request)
    | Advance(request: Request, to: Id)
    | Stop(request: Request, how: Ending)

  // ---------------------------------------------------------------- steps

  /** A command of the server; whatever it queued is recorded as pushed. */
  function Command(s: System, srv: Server): System
  {
    s.(server := srv,
       pushed := if |srv.queue| > |s.server.queue| then s.pushed + [srv.queue[0]] else s.pushed)
  }

  /** A worker's run is over; the event it ends with is applied. */
  function EndRun(s: System, r: Request, how: Ending): System
    requires r in s.live && r.execution in s.server.rows
  {
    var e, at, srv := r.execution, s.live[r].at, s.server;
    var server := match how
      case EndPaused => WithStatus(srv, e, StatusPaused).(saved := srv.saved[e := at])
      case EndAwaiting => WithStatus(srv, e, StatusAwaitingData).(saved := srv.saved[e := at])
      case EndAborted => WithStatus(srv, e, StatusAborted).(saved := srv.saved - {e})
      case EndCompleted => WithStatus(srv, e, StatusCompleted).(saved := srv.saved - {e})
      case EndCrashed => srv;
    s.(server := server, live := s.live - {r}, finished := s.finished + {r},
       stopped := if how.EndPaused? || how.EndAwaiting? then s.stopped[e := at] else s.stopped,
       crashed := if how.EndCrashed? then s.crashed + {e} else s.crashed)
  }

  /** Whether a worker runs an accepted request or drops it. */
  predicate Runs(db: Database, s: System, r: Request)
  {
    && r.execution in s.server.rows && s.server.rows[r.execution].status != StatusAborted
    && r.workflow in db.starts && r.workflow in db.valid
    && (r.resume ==> r.execution in s.server.saved)
  }

  /** One step; a step that is not enabled changes nothing. */
  function Next(db: Database, s: System, step: Step): System
  {
    var srv := s.server;
    match step
    case Execute(e, workflow, start) =>
      if e in srv.rows then s else Command(s, OnExecute(db, srv, e, workflow, start, false))
    case Pause(e) => Command(s, OnPause(srv, e))
    case Resume(e) => Command(s, OnResume(db, srv, e))
    case Abort(e) => Command(s, OnAbort(srv, e))
    case Trigger(e, holds) => Command(s, OnTrigger(db, srv, e, holds))
    case Pop(worker) =>
      if srv.queue == [] then s
      else
        var n := |srv.queue| - 1;
        s.(server := srv.(queue := srv.queue[..n]), accepted := s.accepted + {srv.queue[n]},
           taken := s.taken + [Taking(srv.queue[n], worker)])
    case Begin(r) =>
      if r !in s.accepted then s
      else if Runs(db, s, r) then
        var at := if r.start.Some? then r.start.value else db.starts[r.workflow];
        s.(server := WithStatus(srv, r.execution, StatusRunning), accepted := s.accepted - {r},
           live := s.live[r := LiveRun(at, false, false)])
      else s.(accepted := s.accepted - {r}, finished := s.finished + {r})
    case Deliver(i, r) =>
      if i < |srv.sent| && r in s.live && srv.sent[i].execution == r.execution then
        s.(live := s.live[r := if srv.sent[i].PauseMessage? then s.live[r].(pause := true)
                          else s.live[r].(abort := true)])
      else s
    case Advance(r, to) =>
      if r in s.live && !s.live[r].pause && !s.live[r].abort then s.(live := s.live[r := s.live[r].(at := to)]) else s
    case Stop(r, how) =>
      if r in s.live && r.execution in srv.rows
         && (how.EndPaused? ==> s.live[r].pause) && (how.EndAborted? ==> s.live[r].abort && !s.live[r].pause)
      then EndRun(s, r, how) else s
  }

  const INITIAL := System(Server(map[], map[], [], [], 0), {}, map[], {}, [], [], map[], {})

  /** The state after any sequence of steps. */
  function Reach(db: Database, steps: seq<Step>): System
  {
    if steps == [] then INITIAL else Next(db, Reach(db, steps[..|steps|-1]), steps[|steps|-1])
  }
}
