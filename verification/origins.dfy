/** Where things come from in the protocol: control flags from the commands that ask for them, requests from the
    commands that push them, runs from valid workflows. */
module Origins {
  import opened Elements
  import opened Statuses
  import opened Commands
  import opened Protocol
  import opened Safety

  // ---------------------------------------------------------------- flags and messages

  /** Nothing is on its way to abort the execution, and nothing has. */
  ghost predicate Unaborted(s: System, e: Id)
  {
    && AbortMessage(e) !in s.server.sent
    && (forall r :: r in s.live && r.execution == e ==> !s.live[r].abort)
    && !HasStatus(s.server, e, StatusAborted)
  }

  ghost predicate Unpaused(s: System, e: Id)
  {
    && PauseMessage(e) !in s.server.sent
    && (forall r :: r in s.live && r.execution == e ==> !s.live[r].pause)
    && !HasStatus(s.server, e, StatusPaused)
  }

  lemma StepStaysUnaborted(db: Database, s: System, step: Step, e: Id)
    requires Unaborted(s, e) && step != Abort(e)
    ensures Unaborted(Next(db, s, step), e)
  {
    hide Runs;
  }

  lemma StepStaysUnpaused(db: Database, s: System, step: Step, e: Id)
    requires Unpaused(s, e) && step != Pause(e)
    ensures Unpaused(Next(db, s, step), e)
  {
    hide Runs;
  }

  /** An execution that no command aborts is never aborted, and no live run of it is ever flagged to be. */
  lemma {:induction false} OnlyCommandsAbort(db: Database, steps: seq<Step>, e: Id)
    requires Abort(e) !in steps
    ensures Unaborted(Reach(db, steps), e)
  {
    hide Next, Unaborted;
    if steps == [] {
      NothingFlagged(e);
    } else {
      var n := |steps| - 1;
      assert steps[n] in steps;
      OnlyCommandsAbort(db, steps[..n], e);
      StepStaysUnaborted(db, Reach(db, steps[..n]), steps[n], e);
    }
  }

  /** An execution that no command pauses is never paused, and no live run of it is ever flagged to be. */
  lemma {:induction false} OnlyCommandsPause(db: Database, steps: seq<Step>, e: Id)
    requires Pause(e) !in steps
    ensures Unpaused(Reach(db, steps), e)
  {
    hide Next, Unpaused;
    if steps == [] {
      NothingFlagged(e);
    } else {
      var n := |steps| - 1;
      assert steps[n] in steps;
      OnlyCommandsPause(db, steps[..n], e);
      StepStaysUnpaused(db, Reach(db, steps[..n]), steps[n], e);
    }
  }

  lemma NothingFlagged(e: Id)
    ensures Unaborted(INITIAL, e) && Unpaused(INITIAL, e)
  {
  }

  /** In every reachable state a command to pause or abort an execution with a live run, once its message is
      delivered, raises that flag of the run, and the other flag and everything else of it stay. */
  lemma CommandsArrive(db: Database, steps: seq<Step>, r: Request)
    requires r in Reach(db, steps).live
    ensures var s := Reach(db, steps);
            var paused := Reach(db, steps + [Pause(r.execution), Deliver(|s.server.sent|, r)]);
            var aborted := Reach(db, steps + [Abort(r.execution), Deliver(|s.server.sent|, r)]);
            && paused.live == s.live[r := s.live[r].(pause := true)]
            && aborted.live == s.live[r := s.live[r].(abort := true)]
            && paused.server.rows == aborted.server.rows == s.server.rows
  {
    var s := Reach(db, steps);
    ReachableIsSafe(db, steps);
    assert SafeFor(s, r.execution);
    hide *;
    LiveIsRunning(s, r);
    TwoSteps(db, steps, Pause(r.execution), Deliver(|s.server.sent|, r));
    TwoSteps(db, steps, Abort(r.execution), Deliver(|s.server.sent|, r));
    MessagesArrive(db, s, r);
  }

  /** A run that is to stop stays where it is with its flags, and if it is to pause it does not end aborted. */
  ghost predicate StandsStill(s: System, t: System, r: Request)
  {
    r in s.live && (s.live[r].pause || s.live[r].abort) ==>
      if r in t.live then
        t.live[r].at == s.live[r].at && (s.live[r].pause ==> t.live[r].pause) && (s.live[r].abort ==> t.live[r].abort)
      else s.live[r].pause ==> !HasStatus(t.server, r.execution, StatusAborted)
  }

  lemma StepStandsStill(db: Database, s: System, step: Step, r: Request)
    requires SafeFor(s, r.execution)
    ensures StandsStill(s, Next(db, s, step), r)
  {
    hide OnExecute, OnPause, OnResume, OnAbort, OnTrigger, Runs;
    if r in s.live {
      LiveIsRunning(s, r);
    }
  }

  /** Whatever the step, from every reachable state a run that is to stop stands still until it ends, and one that is
      to pause does not end aborted. */
  lemma FlaggedStandsStill(db: Database, steps: seq<Step>, step: Step, r: Request)
    ensures StandsStill(Reach(db, steps), Reach(db, steps + [step]), r)
  {
    ReachableIsSafe(db, steps);
    assert SafeFor(Reach(db, steps), r.execution);
    assert (steps + [step])[..|steps|] == steps;
    hide Next, SafeFor, StandsStill;
    StepStandsStill(db, Reach(db, steps), step, r);
  }

  lemma LiveIsRunning(s: System, r: Request)
    requires SafeFor(s, r.execution) && r in s.live
    ensures HasStatus(s.server, r.execution, StatusRunning)
  {
    hide HasStatus, Waiting, Token, SavedFits;
  }

  lemma MessagesArrive(db: Database, s: System, r: Request)
    requires r in s.live && HasStatus(s.server, r.execution, StatusRunning)
    ensures var paused := Next(db, Next(db, s, Pause(r.execution)), Deliver(|s.server.sent|, r));
            var aborted := Next(db, Next(db, s, Abort(r.execution)), Deliver(|s.server.sent|, r));
            && paused.live == s.live[r := s.live[r].(pause := true)]
            && aborted.live == s.live[r := s.live[r].(abort := true)]
            && paused.server.rows == aborted.server.rows == s.server.rows
  {
  }

  lemma TwoSteps(db: Database, steps: seq<Step>, a: Step, b: Step)
    ensures Reach(db, steps + [a, b]) == Next(db, Next(db, Reach(db, steps), a), b)
  {
    hide Next;
    assert (steps + [a, b])[..|steps| + 1] == steps + [a];
    assert (steps + [a])[..|steps|] == steps;
  }

  // ---------------------------------------------------------------- requests and runs

  /** An earlier request was for the same execution. */
  ghost predicate Earlier(pushed: seq<Request>, k: nat)
    requires k < |pushed|
  {
    exists j :: 0 <= j < k && pushed[j].execution == pushed[k].execution
  }

  ghost predicate Known(s: System, e: Id)
  {
    exists k :: 0 <= k < |s.pushed| && s.pushed[k].execution == e
  }

  /** The first request of an execution is the one that a command to execute it asked for; every later one resumes. */
  ghost predicate RequestsFit(db: Database, s: System, steps: seq<Step>)
  {
    && (forall e :: e in s.server.rows <==> Known(s, e))
    && (forall k: nat | k < |s.pushed| :: s.pushed[k].resume <==> Earlier(s.pushed, k))
    && (forall k: nat | k < |s.pushed| && !s.pushed[k].resume ::
          Execute(s.pushed[k].execution, s.pushed[k].workflow, s.pushed[k].start) in steps)
  }

  lemma EarlierInFront(pushed: seq<Request>, r: Request, k: nat)
    requires k < |pushed|
    ensures Earlier(pushed + [r], k) <==> Earlier(pushed, k)
  {
    if Earlier(pushed, k) {
      var j :| 0 <= j < k && pushed[j].execution == pushed[k].execution;
      assert (pushed + [r])[j].execution == (pushed + [r])[k].execution;
    }
  }

  lemma PushFits(db: Database, s: System, t: System, steps: seq<Step>, step: Step, r: Request)
    requires RequestsFit(db, s, steps) && t.pushed == s.pushed + [r]
    requires forall e :: e in t.server.rows <==> e in s.server.rows || e == r.execution
    requires r.resume <==> r.execution in s.server.rows
    requires !r.resume ==> step == Execute(r.execution, r.workflow, r.start)
    ensures RequestsFit(db, t, steps + [step])
  {
    var n := |s.pushed|;
    assert t.pushed[n] == r;
    forall e ensures e in t.server.rows <==> Known(t, e) {
      if Known(s, e) {
        var k :| 0 <= k < n && s.pushed[k].execution == e;
        assert t.pushed[k].execution == e;
      }
      if e == r.execution {
        assert t.pushed[n].execution == e;
      }
    }
    assert forall j | 0 <= j < n :: t.pushed[j] == s.pushed[j];
    forall k: nat | k < |t.pushed| ensures t.pushed[k].resume <==> Earlier(t.pushed, k) {
      if k < n {
        EarlierInFront(s.pushed, r, k);
      } else {
        if Known(s, r.execution) {
          var j :| 0 <= j < n && s.pushed[j].execution == r.execution;
          assert t.pushed[j].execution == t.pushed[n].execution;
        }
      }
    }
    forall k: nat | k < |t.pushed| && !t.pushed[k].resume
      ensures Execute(t.pushed[k].execution, t.pushed[k].workflow, t.pushed[k].start) in steps + [step]
    {
      if k == n {
        assert (steps + [step])[|steps|] == step;
      }
    }
  }

  lemma NoPushFits(db: Database, s: System, t: System, steps: seq<Step>, step: Step)
    requires RequestsFit(db, s, steps) && t.pushed == s.pushed
    requires forall e :: e in t.server.rows <==> e in s.server.rows
    ensures RequestsFit(db, t, steps + [step])
  {
    forall e ensures e in t.server.rows <==> Known(t, e) {
      assert Known(t, e) <==> Known(s, e);
    }
  }

  lemma StepFits(db: Database, s: System, steps: seq<Step>, step: Step)
    requires RequestsFit(db, s, steps)
    ensures RequestsFit(db, Next(db, s, step), steps + [step])
  {
    var srv, t := s.server, Next(db, s, step);
    hide RequestsFit;
    match step {
      case Execute(e, workflow, start) =>
        if e !in srv.rows && workflow in db.starts {
          PushFits(db, s, t, steps, step, Request(srv.issued, e, workflow, start, false));
        } else {
          NoPushFits(db, s, t, steps, step);
        }
      case Resume(e) =>
        if Resumable(db, srv, e) {
          PushFits(db, s, t, steps, step, t.server.queue[0]);
        } else {
          NoPushFits(db, s, t, steps, step);
        }
      case Trigger(e, holds) =>
        if Triggerable(db, srv, e) && holds {
          PushFits(db, s, t, steps, step, t.server.queue[0]);
        } else {
          NoPushFits(db, s, t, steps, step);
        }
      case _ => NoPushFits(db, s, t, steps, step);
    }
  }

  /** In every reachable state: the first request pushed for an execution is what a command to execute it asked for,
      with its workflow and start; every later one is a resuming one; and only executions with a request have rows. */
  lemma {:induction false} RequestsComeFromCommands(db: Database, steps: seq<Step>)
    ensures RequestsFit(db, Reach(db, steps), steps)
  {
    hide Next, RequestsFit;
    if steps == [] {
      NothingPushed(db);
    } else {
      var n := |steps| - 1;
      RequestsComeFromCommands(db, steps[..n]);
      StepFits(db, Reach(db, steps[..n]), steps[..n], steps[n]);
      assert steps[..n] + [steps[n]] == steps;
    }
  }

  lemma NothingPushed(db: Database)
    ensures RequestsFit(db, INITIAL, [])
  {
  }

  ghost predicate RunsAreOfValid(db: Database, s: System)
  {
    forall r :: r in s.live ==> r.workflow in db.valid && r.workflow in db.starts
  }

  lemma StepRunsValid(db: Database, s: System, step: Step)
    requires RunsAreOfValid(db, s)
    ensures RunsAreOfValid(db, Next(db, s, step))
  {
    hide OnExecute, OnPause, OnResume, OnAbort, OnTrigger;
  }

  /** No run of a workflow that is not valid is ever live. */
  lemma {:induction false} OnlyValidRun(db: Database, steps: seq<Step>)
    ensures RunsAreOfValid(db, Reach(db, steps))
  {
    hide Next;
    if steps != [] {
      OnlyValidRun(db, steps[..|steps|-1]);
      StepRunsValid(db, Reach(db, steps[..|steps|-1]), steps[|steps|-1]);
    }
  }
}
