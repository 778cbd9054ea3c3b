/** What holds in every reachable state of the protocol, whatever the interleaving. */
module Safety {
  import opened Json
  import opened Elements
  import opened Engine
  import opened Statuses
  import opened Traces
  import opened Commands
  import opened Protocol

  // ---------------------------------------------------------------- the queue

  /** Requests are taken in the order they were pushed, and what is left is queued, newest first. */
  ghost predicate Fifo(s: System)
  {
    && s.server.issued == |s.pushed| == |s.taken| + |s.server.queue|
    && (forall k: nat | k < |s.pushed| :: s.pushed[k].ticket == k)
    && (forall k: nat | k < |s.taken| :: s.taken[k].request == s.pushed[k])
    && (forall i: nat | i < |s.server.queue| :: s.server.queue[i] == s.pushed[|s.pushed| - 1 - i])
  }

  ghost predicate TakenAre(s: System)
  {
    forall r :: r in s.accepted || r in s.live || r in s.finished <==>
        r.ticket < |s.taken| && r == s.taken[r.ticket].request
  }

  /** Every request taken is accepted, running or finished, and only one of these. */
  ghost predicate Conserved(s: System)
  {
    && s.accepted !! s.live.Keys !! s.finished
    && TakenAre(s)
  }

  lemma CommandIsFifo(s: System, srv: Server)
    requires Fifo(s) && Conserved(s)
    requires (srv.queue == s.server.queue && srv.issued == s.server.issued)
             || (srv.issued == s.server.issued + 1
                 && exists r: Request :: r.ticket == s.server.issued && srv.queue == [r] + s.server.queue)
    ensures Fifo(Command(s, srv)) && Conserved(Command(s, srv))
  {
    var t := Command(s, srv);
    assert Conserved(t) by {
      hide Fifo;
      assert TakenAre(t);
    }
    hide Conserved;
    if |srv.queue| > |s.server.queue| {
      forall i: nat | i < |t.server.queue| ensures t.server.queue[i] == t.pushed[|t.pushed| - 1 - i] {
        if i > 0 {
          assert t.server.queue[i] == s.server.queue[i-1];
        }
      }
    }
  }

  lemma EnqueueIsPush(srv: Server, e: Id, workflow: Id, start: Option<Id>, resume: bool)
    ensures var q := Enqueue(srv, e, workflow, start, resume);
            q.issued == srv.issued + 1 && exists r: Request :: r.ticket == srv.issued && q.queue == [r] + srv.queue
  {
  }

  lemma PopIsFifo(db: Database, s: System, worker: string)
    requires Fifo(s) && Conserved(s)
    ensures var t := Next(db, s, Pop(worker)); Fifo(t) && Conserved(t)
  {
    var t := Next(db, s, Pop(worker));
    if s.server.queue != [] {
      var n := |s.server.queue| - 1;
      var r := s.server.queue[n];
      assert r == s.pushed[|s.taken|] && r.ticket == |s.taken|;
      forall q
        ensures q in t.accepted || q in t.live || q in t.finished <==>
                q.ticket < |t.taken| && q == t.taken[q.ticket].request
      {
        assert q in s.accepted || q in s.live || q in s.finished <==>
               q.ticket < |s.taken| && q == s.taken[q.ticket].request;
      }
    }
  }

  lemma BeginIsFifo(db: Database, s: System, r: Request)
    requires Fifo(s) && Conserved(s)
    ensures var t := Next(db, s, Begin(r)); Fifo(t) && Conserved(t)
  {
    hide Runs;
    var t := Next(db, s, Begin(r));
    if r in s.accepted {
      hide Fifo;
      BeginMoves(db, s, r);
      assert TakenAre(t) by {
        assert forall q :: q in t.accepted || q in t.live || q in t.finished <==>
               q in s.accepted || q in s.live || q in s.finished;
      }
      FifoDependsOn(s, t);
    }
  }

  lemma BeginMoves(db: Database, s: System, r: Request)
    requires r in s.accepted
    ensures var t := Next(db, s, Begin(r));
            && t.accepted == s.accepted - {r}
            && t.live.Keys == (if Runs(db, s, r) then s.live.Keys + {r} else s.live.Keys)
            && t.finished == (if Runs(db, s, r) then s.finished else s.finished + {r})
            && t.pushed == s.pushed && t.taken == s.taken
            && t.server.queue == s.server.queue && t.server.issued == s.server.issued
  {
  }

  lemma FifoDependsOn(s: System, t: System)
    requires Fifo(s)
    requires t.pushed == s.pushed && t.taken == s.taken && t.server.queue == s.server.queue
             && t.server.issued == s.server.issued
    ensures Fifo(t)
  {
  }

  lemma StopIsFifo(s: System, r: Request, how: Ending)
    requires Fifo(s) && Conserved(s) && r in s.live && r.execution in s.server.rows
    ensures Fifo(EndRun(s, r, how)) && Conserved(EndRun(s, r, how))
  {
    assert TakenAre(EndRun(s, r, how));
  }

  lemma RunningIsFifo(s: System, t: System)
    requires Fifo(s) && Conserved(s) && t == s.(live := t.live) && t.live.Keys == s.live.Keys
    ensures Fifo(t) && Conserved(t)
  {
    assert TakenAre(t) by {
      assert forall r :: r in t.live <==> r in s.live;
    }
  }

  lemma StepIsFifo(db: Database, s: System, step: Step)
    requires Fifo(s) && Conserved(s)
    ensures var t := Next(db, s, step); Fifo(t) && Conserved(t)
  {
    hide Fifo, Conserved, Enqueue, EndRun, Command;
    var srv := s.server;
    match step {
      case Execute(e, workflow, start) =>
        EnqueueIsPush(srv, e, workflow, start, false);
        CommandIsFifo(s, OnExecute(db, srv, e, workflow, start, false));
      case Pause(e) => CommandIsFifo(s, OnPause(srv, e));
      case Resume(e) =>
        if Resumable(db, srv, e) {
          EnqueueIsPush(srv, e, srv.rows[e].workflow,
                        Some(if e in srv.saved then srv.saved[e] else db.starts[srv.rows[e].workflow]), true);
        }
        CommandIsFifo(s, OnResume(db, srv, e));
      case Abort(e) => CommandIsFifo(s, OnAbort(srv, e));
      case Trigger(e, holds) =>
        if Triggerable(db, srv, e) {
          EnqueueIsPush(srv, e, srv.rows[e].workflow, Some(srv.saved[e]), true);
        }
        CommandIsFifo(s, OnTrigger(db, srv, e, holds));
      case Pop(worker) => PopIsFifo(db, s, worker);
      case Begin(r) => BeginIsFifo(db, s, r);
      case Deliver(i, r) => RunningIsFifo(s, Next(db, s, step));
      case Advance(r, to) => RunningIsFifo(s, Next(db, s, step));
      case Stop(r, how) =>
        if r in s.live && r.execution in srv.rows {
          StopIsFifo(s, r, how);
        }
    }
  }

  // ---------------------------------------------------------------- safety

  /** The requests of an execution that are queued or accepted. */
  ghost predicate Waiting(s: System, r: Request)
  {
    r in s.server.queue || r in s.accepted
  }

  ghost predicate Token(s: System, r: Request)
  {
    Waiting(s, r) || r in s.live
  }

  /** At most one request of the execution is queued, accepted or running. */
  ghost predicate OneToken(s: System, e: Id)
  {
    forall q, r :: Token(s, q) && Token(s, r) && q.execution == e == r.execution ==> q == r
  }

  /** What the status says about the tokens: running means that exactly one run is live, or that one
      ended without a closing event. */
  ghost predicate TokensFit(s: System, e: Id)
  {
    && (forall r: Request :: r.execution == e && Waiting(s, r) ==>
        HasStatus(s.server, e, StatusPending) || HasStatus(s.server, e, StatusAborted))
    && (forall r: Request :: r.execution == e && r in s.live ==>
        HasStatus(s.server, e, StatusRunning) && e !in s.crashed)
    && (e in s.crashed ==> HasStatus(s.server, e, StatusRunning))
    && (HasStatus(s.server, e, StatusRunning) && e !in s.crashed ==> exists r :: r in s.live && r.execution == e)
  }

  ghost predicate SavedAt(s: System, e: Id)
  {
    e in s.server.saved && e in s.stopped && s.server.saved[e] == s.stopped[e]
  }

  /** What is saved, and where a resuming request starts. */
  ghost predicate SavedFits(s: System, e: Id)
  {
    && (HasStatus(s.server, e, StatusPaused) || HasStatus(s.server, e, StatusAwaitingData) ==> SavedAt(s, e))
    && (HasStatus(s.server, e, StatusCompleted) || HasStatus(s.server, e, StatusAborted) ==> e !in s.server.saved)
    && (forall r: Request :: r.execution == e && Waiting(s, r) && r.resume && HasStatus(s.server, e, StatusPending) ==>
          SavedAt(s, e) && r.start == Some(s.stopped[e]))
  }

  ghost predicate SafeFor(s: System, e: Id)
  {
    OneToken(s, e) && TokensFit(s, e) && SavedFits(s, e)
  }

  ghost predicate Safe(s: System)
  {
    forall e :: SafeFor(s, e)
  }

  /** The two states agree on everything about one execution. */
  ghost predicate Same(s: System, t: System, e: Id)
  {
    && (forall r: Request :: r.execution == e ==> (Waiting(t, r) <==> Waiting(s, r)) && (r in t.live <==> r in s.live))
    && (forall status :: HasStatus(t.server, e, status) <==> HasStatus(s.server, e, status))
    && (e in t.server.saved <==> e in s.server.saved)
        && (e in t.server.saved ==> t.server.saved[e] == s.server.saved[e])
    && (e in t.stopped <==> e in s.stopped) && (e in t.stopped ==> t.stopped[e] == s.stopped[e])
    && (e in t.crashed <==> e in s.crashed)
  }

  lemma SameIsSafe(s: System, t: System, e: Id)
    requires SafeFor(s, e) && Same(s, t, e)
    ensures SafeFor(t, e)
  {
    assert forall r: Request :: r.execution == e ==> (Token(t, r) <==> Token(s, r));
    assert SavedAt(s, e) <==> SavedAt(t, e);
    hide HasStatus, Waiting;
  }

  /** A step that is about one execution is safe if it is safe for that one and leaves the others alone. */
  lemma OthersAreSafe(s: System, t: System, e: Id)
    requires Safe(s) && SafeFor(t, e) && forall x :: x != e ==> Same(s, t, x)
    ensures Safe(t)
  {
    hide SafeFor, Same;
    forall x ensures SafeFor(t, x) {
      if x != e {
        SameIsSafe(s, t, x);
      }
    }
  }

  lemma EnqueueIsSafe(s: System, e: Id, workflow: Id, start: Option<Id>, resume: bool)
    requires Safe(s)
    requires e !in s.server.rows || HasStatus(s.server, e, StatusPaused) || HasStatus(s.server, e, StatusAwaitingData)
    requires resume ==> SavedAt(s, e) && start == Some(s.stopped[e])
    ensures Safe(Command(s, Enqueue(s.server, e, workflow, start, resume)))
  {
    var t := Command(s, Enqueue(s.server, e, workflow, start, resume));
    var pushed := t.server.queue[0];
    assert SafeFor(s, e);
    assert forall r :: Waiting(t, r) <==> Waiting(s, r) || r == pushed;
    assert forall r :: Token(t, r) && r.execution == e ==> r == pushed;
    assert SafeFor(t, e);
    hide SafeFor;
    OthersAreSafe(s, t, e);
  }

  lemma AbortIsSafe(s: System, e: Id)
    requires Safe(s)
    ensures Safe(Command(s, OnAbort(s.server, e)))
  {
    var t := Command(s, OnAbort(s.server, e));
    assert forall r :: (Token(t, r) <==> Token(s, r)) && (Waiting(t, r) <==> Waiting(s, r));
    assert SafeFor(s, e);
    assert SafeFor(t, e);
    hide SafeFor;
    OthersAreSafe(s, t, e);
  }

  lemma PopIsSafe(db: Database, s: System, worker: string, e: Id)
    requires Safe(s)
    ensures SafeFor(Next(db, s, Pop(worker)), e)
  {
    var t := Next(db, s, Pop(worker));
    if s.server.queue != [] {
      var n := |s.server.queue| - 1;
      assert s.server.queue == s.server.queue[..n] + [s.server.queue[n]];
    }
    SameIsSafe(s, t, e);
  }

  lemma BeginIsSafe(db: Database, s: System, r: Request)
    requires Safe(s) && r in s.accepted && r !in s.server.queue
    ensures Safe(Next(db, s, Begin(r)))
  {
    var t := Next(db, s, Begin(r));
    assert Waiting(s, r) && SafeFor(s, r.execution);
    assert forall q :: Waiting(t, q) <==> Waiting(s, q) && q != r;
    BeginIsSafeHere(db, s, r);
    hide SafeFor, Runs;
    OthersAreSafe(s, t, r.execution);
  }

  lemma BeginIsSafeHere(db: Database, s: System, r: Request)
    requires SafeFor(s, r.execution) && r in s.accepted && r !in s.server.queue
    ensures SafeFor(Next(db, s, Begin(r)), r.execution)
  {
    var t, e := Next(db, s, Begin(r)), r.execution;
    assert Waiting(s, r) && Token(s, r);
    assert forall q: Request :: q.execution == e ==> !Waiting(t, q);
    assert forall q: Request :: q.execution == e && q in t.live ==> q == r;
    if Runs(db, s, r) {
      assert r in t.live;
    }
  }

  lemma EndIsSafe(s: System, r: Request, how: Ending)
    requires Safe(s) && r in s.live && r.execution in s.server.rows
    ensures Safe(EndRun(s, r, how))
  {
    var t := EndRun(s, r, how);
    EndIsSafeHere(s, r, how);
    hide SafeFor;
    OthersAreSafe(s, t, r.execution);
  }

  lemma EndIsSafeHere(s: System, r: Request, how: Ending)
    requires SafeFor(s, r.execution) && r in s.live && r.execution in s.server.rows
    ensures SafeFor(EndRun(s, r, how), r.execution)
  {
    var t := EndRun(s, r, how);
    assert Token(s, r);
    assert forall q: Request :: q.execution == r.execution ==> !Token(t, q);
  }

  lemma StepIsSafe(db: Database, s: System, step: Step)
    requires Safe(s) && Fifo(s) && Conserved(s)
    ensures Safe(Next(db, s, step))
  {
    hide SafeFor, Enqueue, SavedAt, EndRun;
    var srv := s.server;
    match step {
      case Execute(e, workflow, start) =>
        if e !in srv.rows && workflow in db.starts {
          EnqueueIsSafe(s, e, workflow, start, false);
        }
      case Pause(e) => UnchangedIsSafe(s, Next(db, s, step));
      case Resume(e) =>
        if Resumable(db, srv, e) {
          StoppedIsSaved(s, e);
          EnqueueIsSafe(s, e, srv.rows[e].workflow, Some(srv.saved[e]), true);
        }
      case Abort(e) => AbortIsSafe(s, e);
      case Trigger(e, holds) =>
        if Triggerable(db, srv, e) && holds {
          StoppedIsSaved(s, e);
          EnqueueIsSafe(s, e, srv.rows[e].workflow, Some(srv.saved[e]), true);
        }
      case Pop(worker) =>
        forall e ensures SafeFor(Next(db, s, step), e) {
          PopIsSafe(db, s, worker, e);
        }
      case Begin(r) =>
        if r in s.accepted {
          AcceptedIsNotQueued(s, r);
          BeginIsSafe(db, s, r);
        }
      case Deliver(i, r) => UnchangedIsSafe(s, Next(db, s, step));
      case Advance(r, to) => UnchangedIsSafe(s, Next(db, s, step));
      case Stop(r, how) =>
        if r in s.live && r.execution in srv.rows {
          EndIsSafe(s, r, how);
        }
    }
  }

  lemma StoppedIsSaved(s: System, e: Id)
    requires Safe(s) && (HasStatus(s.server, e, StatusPaused) || HasStatus(s.server, e, StatusAwaitingData))
    ensures SavedAt(s, e) && s.server.saved[e] == s.stopped[e]
  {
    assert SafeFor(s, e);
  }

  lemma AcceptedIsNotQueued(s: System, r: Request)
    requires Fifo(s) && Conserved(s) && r in s.accepted
    ensures r !in s.server.queue
  {
    assert TakenAre(s);
  }

  lemma UnchangedIsSafe(s: System, t: System)
    requires Safe(s) && t.live.Keys == s.live.Keys && t.server.(sent := s.server.sent) == s.server
    requires t == s.(live := t.live, server := t.server)
    ensures Safe(t)
  {
    forall e ensures SafeFor(t, e) {
      SameIsSafe(s, t, e) by {
        assert forall r :: r in t.live <==> r in s.live;
      }
    }
  }

  lemma InitialIsSafe()
    ensures Safe(INITIAL) && Fifo(INITIAL) && Conserved(INITIAL)
  {
  }

  lemma {:induction false} ReachableIsSafe(db: Database, steps: seq<Step>)
    ensures var s := Reach(db, steps); Safe(s) && Fifo(s) && Conserved(s)
  {
    hide Next, Safe, Fifo, Conserved;
    if steps == [] {
      InitialIsSafe();
    } else {
      var before := steps[..|steps|-1];
      ReachableIsSafe(db, before);
      StepIsFifo(db, Reach(db, before), steps[|steps|-1]);
      StepIsSafe(db, Reach(db, before), steps[|steps|-1]);
    }
  }

  // ---------------------------------------------------------------- the theorems

  /** In every reachable state an execution has at most one request queued, accepted or running; it is running exactly
      when one run of it is live or ended without a closing event, and then there is no other; pending and running
      exclude each other's tokens; a paused, waiting or completed execution has no token at all. */
  lemma ProtocolSafety(db: Database, steps: seq<Step>, e: Id)
    ensures var s := Reach(db, steps);
            && (forall q, r :: Token(s, q) && Token(s, r) && q.execution == e == r.execution ==> q == r)
            && (HasStatus(s.server, e, StatusRunning) <==>
                e in s.crashed || exists r :: r in s.live && r.execution == e)
            && (e in s.crashed ==> forall r :: Token(s, r) ==> r.execution != e)
            && (forall r :: Token(s, r) && r.execution == e ==>
                  HasStatus(s.server, e, StatusPending) || HasStatus(s.server, e, StatusRunning)
                      || HasStatus(s.server, e, StatusAborted))
  {
    ReachableIsSafe(db, steps);
    assert SafeFor(Reach(db, steps), e);
  }

  /** A paused or waiting execution has a saved state naming the action it stopped at, a completed or aborted one
      has none. */
  lemma SavedStates(db: Database, steps: seq<Step>, e: Id)
    ensures var s := Reach(db, steps);
            && (HasStatus(s.server, e, StatusPaused) || HasStatus(s.server, e, StatusAwaitingData) ==>
                  e in s.server.saved && e in s.stopped && s.server.saved[e] == s.stopped[e])
            && (HasStatus(s.server, e, StatusCompleted) || HasStatus(s.server, e, StatusAborted) ==>
                e !in s.server.saved)
  {
    ReachableIsSafe(db, steps);
    assert SafeFor(Reach(db, steps), e);
  }

  /** A worker that takes up a resuming request always finds the saved state, unless the execution was aborted
      meanwhile, and its run starts at the action where the last one stopped. */
  lemma ResumesWhereStopped(db: Database, steps: seq<Step>, r: Request)
    requires var s := Reach(db, steps); r in s.accepted && r.resume && r.workflow in db.starts && r.workflow in db.valid
    ensures var s := Reach(db, steps);
            if HasStatus(s.server, r.execution, StatusAborted) then Next(db, s, Begin(r)).live == s.live
            else r.execution in s.stopped
                 && Next(db, s, Begin(r)).live == s.live[r := LiveRun(s.stopped[r.execution], false, false)]
  {
    hide Reach;
    ReachableIsSafe(db, steps);
    var s := Reach(db, steps);
    assert SafeFor(s, r.execution) && Waiting(s, r);
  }

  lemma StepKeepsFinished(db: Database, s: System, step: Step, e: Id)
    requires SafeFor(s, e) && (HasStatus(s.server, e, StatusCompleted) || HasStatus(s.server, e, StatusAborted))
    ensures e in Next(db, s, step).server.rows && Next(db, s, step).server.rows[e] == s.server.rows[e]
  {
    assert forall r :: r in s.live ==> r.execution != e;
    if step.Begin? && step.request in s.accepted && step.request.execution == e {
      assert Waiting(s, step.request);
    }
  }

  /** Completed and aborted are never left, whatever happens afterwards. */
  lemma {:induction false} FinishedForGood(db: Database, steps: seq<Step>, more: seq<Step>, e: Id)
    requires var s := Reach(db, steps); HasStatus(s.server, e, StatusCompleted) || HasStatus(s.server, e, StatusAborted)
    ensures var s, t := Reach(db, steps), Reach(db, steps + more);
            e in t.server.rows && t.server.rows[e] == s.server.rows[e]
    decreases |more|
  {
    hide Next;
    if more == [] {
      assert steps + more == steps;
    } else {
      var before := more[..|more|-1];
      FinishedForGood(db, steps, before, e);
      assert (steps + more)[..|steps + more|-1] == steps + before;
      ReachableIsSafe(db, steps + before);
      assert SafeFor(Reach(db, steps + before), e);
      StepKeepsFinished(db, Reach(db, steps + before), more[|more|-1], e);
    }
  }

  lemma {:induction false} DistinctMultiset(rs: seq<Request>, r: Request)
    requires forall i, j | 0 <= i < j < |rs| :: rs[i] != rs[j]
    ensures multiset(rs)[r] == if r in rs then 1 else 0
  {
    if rs != [] {
      var n := |rs| - 1;
      assert rs == rs[..n] + [rs[n]];
      DistinctMultiset(rs[..n], r);
    }
  }

  /** Requests are taken in the order they were pushed, each by one worker, and at every reachable state the
      requests pushed are those queued, accepted, running, and finished or dropped, with multiplicities. */
  lemma RequestsAreConserved(db: Database, steps: seq<Step>)
    ensures var s := Reach(db, steps);
            && |s.taken| <= |s.pushed|
            && (forall k: nat | k < |s.taken| :: s.taken[k].request == s.pushed[k])
            && (forall j, k | 0 <= j < k < |s.taken| :: s.taken[j].request != s.taken[k].request)
            && multiset(s.pushed) ==
                 multiset(s.server.queue) + multiset(s.accepted) + multiset(s.live.Keys) + multiset(s.finished)
  {
    hide Reach;
    ReachableIsSafe(db, steps);
    var s := Reach(db, steps);
    var parts := multiset(s.server.queue) + multiset(s.accepted) + multiset(s.live.Keys) + multiset(s.finished);
    forall r ensures multiset(s.pushed)[r] == parts[r] {
      DistinctMultiset(s.pushed, r);
      DistinctMultiset(s.server.queue, r);
      PlacesOf(s, r);
    }
    assert multiset(s.pushed) == parts;
  }

  lemma PlacesOf(s: System, r: Request)
    requires Fifo(s) && Conserved(s)
    ensures r in s.pushed <==> r in s.server.queue || r in s.accepted || r in s.live || r in s.finished
    ensures r in s.server.queue ==> r !in s.accepted && r !in s.live && r !in s.finished
  {
    assert TakenAre(s);
    if r in s.pushed {
      var k :| 0 <= k < |s.pushed| && s.pushed[k] == r;
      if k >= |s.taken| {
        assert s.server.queue[|s.pushed| - 1 - k] == r;
      } else {
        assert r == s.taken[r.ticket].request;
      }
    }
  }

  // ---------------------------------------------------------------- what a run leaves is what its events do

  /** The ending that goes with an outcome of the engine. A run that is abandoned ends as quietly as one that failed. */
  function EndingOf(o: Outcome): Ending
    requires !o.Running?
  {
    match o
    case Completed => EndCompleted
    case Paused(_) => EndPaused
    case Aborted(_) => EndAborted
    case AwaitingData(_) => EndAwaiting
    case Abandoned(_) => EndCrashed
    case Failed(_, _) => EndCrashed
  }

  predicate StandsAt(run: LiveRun, o: Outcome)
  {
    match o
    case Paused(at) => run.at == at
    case AwaitingData(at) => run.at == at
    case _ => true
  }

  /** The protocol's ending of a run and the delivery of the events of the engine's run agree on the status the
      execution gets and on its saved state. */
  lemma EndingIsDelivery(w: World, f: Workflow, start: State, schedule: seq<Flags>, rec: Record, s: System, r: Request)
    requires Fits(f, start) && Settled(rec.actions, start.execution)
    requires r in s.live && HasStatus(s.server, r.execution, StatusRunning)
    requires !ExecuteWorkflow(w, f, start, schedule).outcome.Running?
    requires StandsAt(s.live[r], ExecuteWorkflow(w, f, start, schedule).outcome)
    ensures var run := ExecuteWorkflow(w, f, start, schedule);
            var after := ApplyAll(rec.(status := StatusPending), run.trace);
            var srv := EndRun(s, r, EndingOf(run.outcome)).server;
            && HasStatus(srv, r.execution, after.status)
            && (!EndingOf(run.outcome).EndCrashed? ==>
                  after.saved == if r.execution in srv.saved then Some(srv.saved[r.execution]) else None)
  {
    hide ExecuteWorkflow, ApplyAll;
    LegIsRecorded(w, f, start, schedule, rec);
  }
}
