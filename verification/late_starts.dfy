/** The protocol with a worker's status check and its start event as two steps: what that breaks, and exactly
    when. */
module LateStarts {
  import opened Json
  import opened Elements
  import opened Statuses
  import opened Commands
  import opened Protocol
  import opened Safety

  /** The system, and the accepted requests whose check has passed but whose start event is still to come. */
  datatype Late = Late(system: System, checked: set<Request>)

  datatype LateStep =
    | Plain(step: Step)                 // any step but a begin
    | Check(request: Request)
    | Start(request: Request)

  /** The start event is applied, whatever has become of the execution since the check. */
  function StartRun(db: Database, s: System, r: Request): System
    requires r.execution in s.server.rows && r.workflow in db.starts
  {
    var at := if r.start.Some? then r.start.value else db.starts[r.workflow];
    s.(server := WithStatus(s.server, r.execution, StatusRunning), accepted := s.accepted - {r},
       live := s.live[r := LiveRun(at, false, false)])
  }

  function LateNext(db: Database, l: Late, step: LateStep): Late
  {
    match step
    case Plain(p) => if p.Begin? then l else l.(system := Next(db, l.system, p))
    case Check(r) =>
      if r !in l.system.accepted || r in l.checked then l
      else if Runs(db, l.system, r) then l.(checked := l.checked + {r})
      else l.(system := Next(db, l.system, Begin(r)))
    case Start(r) =>
      if r in l.checked && r.execution in l.system.server.rows && r.workflow in db.starts
      then Late(StartRun(db, l.system, r), l.checked - {r})
      else l
  }

  function LateReach(db: Database, steps: seq<LateStep>, n: nat): Late
    requires n <= |steps|
  {
    if n == 0 then Late(INITIAL, {}) else LateNext(db, LateReach(db, steps, n - 1), steps[n - 1])
  }

  // ---------------------------------------------------------------- what still holds

  ghost predicate Pending(db: Database, l: Late)
  {
    forall r :: r in l.checked ==> r in l.system.accepted && r.workflow in db.starts
  }

  ghost predicate Sound(db: Database, l: Late)
  {
    Safe(l.system) && Fifo(l.system) && Conserved(l.system) && Pending(db, l)
  }

  lemma StartIsSafeHere(db: Database, s: System, r: Request)
    requires SafeFor(s, r.execution) && r in s.accepted && r !in s.server.queue
    requires r.execution in s.server.rows && r.workflow in db.starts
    ensures SafeFor(StartRun(db, s, r), r.execution)
  {
    var t, e := StartRun(db, s, r), r.execution;
    assert Waiting(s, r) && Token(s, r);
    assert forall q: Request :: q.execution == e ==> !Waiting(t, q);
    assert forall q: Request :: q.execution == e && q in t.live ==> q == r;
    assert r in t.live;
  }

  lemma StartIsSafe(db: Database, s: System, r: Request)
    requires Safe(s) && r in s.accepted && r !in s.server.queue
    requires r.execution in s.server.rows && r.workflow in db.starts
    ensures Safe(StartRun(db, s, r))
  {
    var t := StartRun(db, s, r);
    assert SafeFor(s, r.execution);
    assert forall q :: Waiting(t, q) <==> Waiting(s, q) && q != r;
    StartIsSafeHere(db, s, r);
    hide SafeFor;
    OthersAreSafe(s, t, r.execution);
  }

  lemma StartIsFifo(db: Database, s: System, r: Request)
    requires Fifo(s) && Conserved(s) && r in s.accepted && r.execution in s.server.rows && r.workflow in db.starts
    ensures Fifo(StartRun(db, s, r)) && Conserved(StartRun(db, s, r))
  {
    var t := StartRun(db, s, r);
    FifoDependsOn(s, t);
    hide Fifo;
    assert TakenAre(t) by {
      assert forall q :: q in t.accepted || q in t.live || q in t.finished <==>
             q in s.accepted || q in s.live || q in s.finished;
    }
  }

  lemma LateStepIsSound(db: Database, l: Late, step: LateStep)
    requires Sound(db, l)
    ensures Sound(db, LateNext(db, l, step))
  {
    hide Safe, Fifo, Conserved, Next, StartRun, Runs;
    match step {
      case Plain(p) =>
        if !p.Begin? {
          StepIsSafe(db, l.system, p);
          StepIsFifo(db, l.system, p);
          AcceptedStay(db, l.system, p);
        }
      case Check(r) =>
        if r in l.system.accepted && r !in l.checked {
          StepIsSafe(db, l.system, Begin(r));
          StepIsFifo(db, l.system, Begin(r));
          CheckKeepsOthers(db, l.system, r);
        }
      case Start(r) =>
        if r in l.checked && r.execution in l.system.server.rows {
          AcceptedIsNotQueued(l.system, r);
          StartIsSafe(db, l.system, r);
          StartIsFifo(db, l.system, r);
          assert forall q :: q in l.checked - {r} ==> q in StartRun(db, l.system, r).accepted by {
            StartTakesOne(db, l.system, r);
          }
        }
    }
  }

  lemma AcceptedStay(db: Database, s: System, step: Step)
    requires !step.Begin?
    ensures s.accepted <= Next(db, s, step).accepted
  {
    hide Enqueue, OnExecute, OnPause, OnResume, OnAbort, OnTrigger;
  }

  lemma CheckKeepsOthers(db: Database, s: System, r: Request)
    ensures s.accepted - {r} <= Next(db, s, Begin(r)).accepted
    ensures r in s.accepted && Runs(db, s, r) ==> r.workflow in db.starts
  {
  }

  lemma StartTakesOne(db: Database, s: System, r: Request)
    requires r.execution in s.server.rows && r.workflow in db.starts
    ensures StartRun(db, s, r).accepted == s.accepted - {r}
  {
  }

  lemma {:induction false} LateReachIsSound(db: Database, steps: seq<LateStep>, n: nat)
    requires n <= |steps|
    ensures Sound(db, LateReach(db, steps, n))
  {
    hide LateNext;
    if n == 0 {
      InitialIsSafe();
    } else {
      hide Sound;
      LateReachIsSound(db, steps, n - 1);
      LateStepIsSound(db, LateReach(db, steps, n - 1), steps[n - 1]);
    }
  }

  // ---------------------------------------------------------------- when aborted is left

  predicate AbortedAt(l: Late, e: Id)
  {
    HasStatus(l.system.server, e, StatusAborted)
  }

  /** At some step the execution is aborted and after it is not. */
  ghost predicate Revived(db: Database, steps: seq<LateStep>, e: Id)
  {
    exists k :: 0 <= k < |steps| && AbortedAt(LateReach(db, steps, k), e) && !AbortedAt(LateReach(db, steps, k + 1), e)
  }

  /** The request passes its check at step i and stands checked until its start at step k. */
  ghost predicate Window(db: Database, steps: seq<LateStep>, r: Request, i: nat, k: nat)
    requires i < k < |steps|
  {
    && steps[i] == Check(r) && r !in LateReach(db, steps, i).checked
    && (forall n | i < n <= k :: r in LateReach(db, steps, n).checked)
    && steps[k] == Start(r)
  }

  /** An abort of the execution falls between the check and the start of one of its requests. */
  ghost predicate Overtaken(db: Database, steps: seq<LateStep>, e: Id)
  {
    exists i, j, k, r: Request ::
        0 <= i < j < k < |steps| && r.execution == e && Window(db, steps, r, i, k) && steps[j] == Plain(Abort(e))
  }

  /** Only a start leaves aborted. */
  lemma OnlyStartsRevive(db: Database, l: Late, step: LateStep, e: Id)
    requires Sound(db, l) && AbortedAt(l, e) && !AbortedAt(LateNext(db, l, step), e)
    ensures step.Start? && step.request in l.checked && step.request.execution == e
  {
    hide Fifo, Conserved;
    assert SafeFor(l.system, e);
    match step {
      case Plain(p) => StepKeepsFinished(db, l.system, p, e);
      case Check(r) => StepKeepsFinished(db, l.system, Begin(r), e);
      case Start(r) =>
    }
  }

  lemma StartRevives(db: Database, l: Late, r: Request)
    requires Sound(db, l) && r in l.checked && AbortedAt(l, r.execution)
    ensures !AbortedAt(LateNext(db, l, Start(r)), r.execution)
  {
  }

  /** While a request stands checked, its execution becomes aborted by nothing but a command to abort it. */
  lemma OnlyCommandsAbort(db: Database, l: Late, step: LateStep, r: Request)
    requires Sound(db, l) && r in l.checked
    requires !AbortedAt(l, r.execution) && AbortedAt(LateNext(db, l, step), r.execution)
    ensures step == Plain(Abort(r.execution))
  {
    var s, e := l.system, r.execution;
    assert SafeFor(s, e) && Waiting(s, r);
    assert forall q :: q in s.live ==> q.execution != e;
    hide Fifo, Conserved, Safe, SafeFor, Next, Runs;
    match step {
      case Plain(p) => NextAborts(db, s, p, e);
      case Check(q) => NextAborts(db, s, Begin(q), e);
      case Start(q) =>
    }
  }

  /** An execution becomes aborted by a command, or by a live run of its own. */
  lemma NextAborts(db: Database, s: System, p: Step, e: Id)
    requires !HasStatus(s.server, e, StatusAborted) && HasStatus(Next(db, s, p).server, e, StatusAborted)
    ensures p == Abort(e) || (p.Stop? && p.request.execution == e && p.request in s.live)
  {
    hide Enqueue, Runs;
    var srv := s.server;
    match p {
      case Execute(d, workflow, start) => EnqueueIsPending(srv, d, workflow, start, false);
      case Resume(d) =>
        if Resumable(db, srv, d) {
          EnqueueIsPending(srv, d, srv.rows[d].workflow,
                           Some(if d in srv.saved then srv.saved[d] else db.starts[srv.rows[d].workflow]), true);
        }
      case Trigger(d, holds) =>
        if Triggerable(db, srv, d) {
          EnqueueIsPending(srv, d, srv.rows[d].workflow, Some(srv.saved[d]), true);
        }
      case _ =>
    }
  }

  lemma EnqueueIsPending(srv: Server, d: Id, workflow: Id, start: Option<Id>, resume: bool)
    ensures forall e :: HasStatus(Enqueue(srv, d, workflow, start, resume), e, StatusAborted) ==>
            HasStatus(srv, e, StatusAborted)
  {
  }

  lemma AbortTakesEffect(db: Database, l: Late, r: Request)
    requires Sound(db, l) && r in l.checked
    ensures AbortedAt(LateNext(db, l, Plain(Abort(r.execution))), r.execution)
  {
    hide Fifo, Conserved;
    assert SafeFor(l.system, r.execution) && Waiting(l.system, r);
  }

  lemma EntersChecked(db: Database, l: Late, step: LateStep, r: Request)
    requires r in LateNext(db, l, step).checked && r !in l.checked
    ensures step == Check(r) && !AbortedAt(LateNext(db, l, step), r.execution)
  {
    hide Next;
  }

  /** A request that stands checked has passed its check at some step, and stood checked since. */
  lemma {:induction false} CheckedSince(db: Database, steps: seq<LateStep>, k: nat, r: Request) returns (i: nat)
    requires k <= |steps| && r in LateReach(db, steps, k).checked
    ensures i < k && steps[i] == Check(r) && r !in LateReach(db, steps, i).checked
    ensures forall n | i < n <= k :: r in LateReach(db, steps, n).checked
    ensures !AbortedAt(LateReach(db, steps, i + 1), r.execution)
  {
    hide LateNext, AbortedAt;
    if r in LateReach(db, steps, k - 1).checked {
      i := CheckedSince(db, steps, k - 1, r);
    } else {
      i := k - 1;
      EntersChecked(db, LateReach(db, steps, i), steps[i], r);
    }
  }

  /** A state that is not aborted at one point and is at a later one became so at a step between. */
  lemma {:induction false} BecameAborted(db: Database, steps: seq<LateStep>, e: Id, a: nat, b: nat) returns (j: nat)
    requires a <= b <= |steps| && !AbortedAt(LateReach(db, steps, a), e) && AbortedAt(LateReach(db, steps, b), e)
    ensures a <= j < b && !AbortedAt(LateReach(db, steps, j), e) && AbortedAt(LateReach(db, steps, j + 1), e)
    decreases b
  {
    hide LateReach, AbortedAt;
    if AbortedAt(LateReach(db, steps, b - 1), e) {
      j := BecameAborted(db, steps, e, a, b - 1);
    } else {
      j := b - 1;
    }
  }

  lemma {:induction false} LeftAborted(db: Database, steps: seq<LateStep>, e: Id, a: nat, b: nat) returns (j: nat)
    requires a <= b <= |steps| && AbortedAt(LateReach(db, steps, a), e) && !AbortedAt(LateReach(db, steps, b), e)
    ensures a <= j < b && AbortedAt(LateReach(db, steps, j), e) && !AbortedAt(LateReach(db, steps, j + 1), e)
    decreases b
  {
    hide LateReach, AbortedAt;
    if AbortedAt(LateReach(db, steps, b - 1), e) {
      j := b - 1;
    } else {
      j := LeftAborted(db, steps, e, a, b - 1);
    }
  }

  lemma RevivedIsOvertaken(db: Database, steps: seq<LateStep>, e: Id)
    requires Revived(db, steps, e)
    ensures Overtaken(db, steps, e)
  {
    hide LateNext, AbortedAt, Sound;
    var k :| 0 <= k < |steps| && AbortedAt(LateReach(db, steps, k), e) && !AbortedAt(LateReach(db, steps, k + 1), e);
    LateReachIsSound(db, steps, k);
    OnlyStartsRevive(db, LateReach(db, steps, k), steps[k], e);
    var r := steps[k].request;
    var i := CheckedSince(db, steps, k, r);
    var j := BecameAborted(db, steps, e, i + 1, k);
    LateReachIsSound(db, steps, j);
    OnlyCommandsAbort(db, LateReach(db, steps, j), steps[j], r);
    assert Window(db, steps, r, i, k);
  }

  lemma OvertakenIsRevived(db: Database, steps: seq<LateStep>, e: Id)
    requires Overtaken(db, steps, e)
    ensures Revived(db, steps, e)
  {
    hide LateNext, AbortedAt, Sound;
    var i, j, k, r: Request :| 0 <= i < j < k < |steps| && r.execution == e && Window(db, steps, r, i, k)
        && steps[j] == Plain(Abort(e));
    LateReachIsSound(db, steps, j);
    AbortTakesEffect(db, LateReach(db, steps, j), r);
    LateReachIsSound(db, steps, k);
    if AbortedAt(LateReach(db, steps, k), e) {
      StartRevives(db, LateReach(db, steps, k), r);
      assert LateReach(db, steps, k + 1) == LateNext(db, LateReach(db, steps, k), steps[k]);
    } else {
      var n := LeftAborted(db, steps, e, j + 1, k);
    }
  }

  /** With the check and the start as two steps, an aborted execution is set running again exactly when an abort
      of it falls between the check and the start of one of its requests. */
  lemma AbortedIsLeftExactly(db: Database, steps: seq<LateStep>, e: Id)
    ensures Revived(db, steps, e) <==> Overtaken(db, steps, e)
  {
    hide Revived, Overtaken;
    if Revived(db, steps, e) {
      RevivedIsOvertaken(db, steps, e);
    }
    if Overtaken(db, steps, e) {
      OvertakenIsRevived(db, steps, e);
    }
  }

  /** It does happen: a request is checked, its execution aborted, and then started. */
  lemma LateStartRevives()
    ensures var db := Database(map["w" := "a"], {"w"});
            var r := Request(0, "e", "w", None, false);
            var steps := [Plain(Execute("e", "w", None)), Plain(Pop("k")), Check(r), Plain(Abort("e")), Start(r)];
            && AbortedAt(LateReach(db, steps, 4), "e")
            && HasStatus(LateReach(db, steps, 5).system.server, "e", StatusRunning)
            && Revived(db, steps, "e")
  {
    var db := Database(map["w" := "a"], {"w"});
    var r := Request(0, "e", "w", None, false);
    var steps := [Plain(Execute("e", "w", None)), Plain(Pop("k")), Check(r), Plain(Abort("e")), Start(r)];
    var l1, l2, l3 := LateReach(db, steps, 1), LateReach(db, steps, 2), LateReach(db, steps, 3);
    var l0 := LateReach(db, steps, 0);
    assert l0 == Late(INITIAL, {});
    assert l1 == LateNext(db, l0, steps[0]);
    assert l1.system.server.queue == [r] && HasStatus(l1.system.server, "e", StatusPending);
    assert l2 == LateNext(db, l1, steps[1]);
    assert l2.system.accepted == {r} && HasStatus(l2.system.server, "e", StatusPending);
    assert l3 == LateNext(db, l2, steps[2]);
    assert l3.checked == {r} && HasStatus(l3.system.server, "e", StatusPending);
    var l4, l5 := LateReach(db, steps, 4), LateReach(db, steps, 5);
    assert l4 == LateNext(db, l3, steps[3]) && l5 == LateNext(db, l4, steps[4]);
    assert AbortedAt(l4, "e") && !AbortedAt(l5, "e");
  }
}
