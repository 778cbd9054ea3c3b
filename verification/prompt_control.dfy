/** Pool threads and the communication thread of one worker, interleaved step by step. */
module PromptControl {
  import opened Json
  import opened Elements
  import opened Registry

  /** Where a pool thread is in the loop over actions: about to check the flags, past the check, or on its way
      out. A context is named by the order of its creation. */
  datatype Place = Idle | AtCheck(context: nat) | Cleared(context: nat) | Leaving(context: nat)

  /** A run's context, and how many actions it has started. */
  datatype Run = Run(execution: Id, thread: string, paused: bool, aborted: bool, started: nat)

  datatype Control = PauseControl | AbortControl

  /** A context the communication thread has looked up and is about to flag. */
  datatype Held = Held(context: nat, control: Control, execution: Id)

  datatype Worker = Worker(threads: map<string, Place>, registry: seq<Slot<nat>>, runs: seq<Run>,
                           pending: seq<Id>, held: Option<Held>)

  datatype Step =
    | Submit(execution: Id)
    | Drop(thread: string)
    | Register(thread: string)
    | Check(thread: string)
    | Act(thread: string, more: bool)
    | Raise(thread: string, started: bool)
    | Leave(thread: string)
    | Find(control: Control, execution: Id)
    | Flag

  function KeyOf(runs: seq<Run>): nat -> Id
  {
    (c: nat) => if c < |runs| then runs[c].execution else ""
  }

  function Started(runs: seq<Run>, c: nat): seq<Run>
    requires c < |runs|
  {
    runs[c := runs[c].(started := runs[c].started + 1)]
  }

  /** One step; a step that is not enabled changes nothing. A run that raises (a device reference that does not
      resolve, a wait for trigger data, an uncaught error inside an action or a branch) leaves its entry behind. A
      run that is abandoned acts a last time and leaves. */
  function Next(s: Worker, step: Step): Worker
  {
    match step
    case Submit(e) => if !AtCapacity(s.registry, |s.threads|) then s.(pending := s.pending + [e]) else s
    case Drop(t) => if t in s.threads && s.threads[t].Idle? && s.pending != [] then s.(pending := s.pending[1..]) else s
    case Register(t) =>
      if t in s.threads && s.threads[t].Idle? && s.pending != [] then
        var c := |s.runs|;
        s.(threads := s.threads[t := AtCheck(c)], registry := Put(s.registry, t, c), pending := s.pending[1..],
           runs := s.runs + [Run(s.pending[0], t, false, false, 0)])
      else s
    case Check(t) =>
      if t in s.threads && s.threads[t].AtCheck? && s.threads[t].context < |s.runs| then
        var c := s.threads[t].context;
        if s.runs[c].paused then
          s.(threads := s.threads[t := Leaving(c)], runs := s.runs[c := s.runs[c].(paused := false)])
        else if s.runs[c].aborted then
          s.(threads := s.threads[t := Leaving(c)], runs := s.runs[c := s.runs[c].(aborted := false)])
        else s.(threads := s.threads[t := Cleared(c)])
      else s
    case Act(t, more) =>
      if t in s.threads && s.threads[t].Cleared? && s.threads[t].context < |s.runs| then
        var c := s.threads[t].context;
        s.(threads := s.threads[t := if more then AtCheck(c) else Leaving(c)], runs := Started(s.runs, c))
      else s
    case Raise(t, started) =>
      if t in s.threads && s.threads[t].Cleared? && s.threads[t].context < |s.runs| then
        s.(threads := s.threads[t := Idle], runs := if started then Started(s.runs, s.threads[t].context) else s.runs)
      else s
    case Leave(t) =>
      if t in s.threads && s.threads[t].Leaving?
          then s.(threads := s.threads[t := Idle], registry := Remove(s.registry, t))
      else s
    case Find(control, e) =>
      (match First(s.registry, e, KeyOf(s.runs))
       case None => s.(held := None)
       case Some(c) => s.(held := Some(Held(c, control, e))))
    case Flag =>
      if s.held.Some? && s.held.value.context < |s.runs| then
        var c := s.held.value.context;
        s.(held := None,
           runs := s.runs[c := if s.held.value.control.PauseControl? then s.runs[c].(paused := true)
                          else s.runs[c].(aborted := true)])
      else s
  }

  function NextAll(s: Worker, steps: seq<Step>): Worker
  {
    if steps == [] then s else Next(NextAll(s, steps[..|steps|-1]), steps[|steps|-1])
  }

  function Start(pool: set<string>): Worker
  {
    Worker(map t | t in pool :: Idle, [], [], [], None)
  }

  // ---------------------------------------------------------------- the registry belongs to its threads

  /** The entry of a thread was set by that thread, a thread in a run has that run as its entry, and a context
      looked up is one of the execution asked for. */
  ghost predicate Owned(s: Worker)
  {
    && Distinct(s.registry)
    && (forall e :: e in s.registry ==>
        e.thread in s.threads && e.context < |s.runs| && s.runs[e.context].thread == e.thread)
    && (forall t :: t in s.threads && !s.threads[t].Idle? ==> Slot(t, s.threads[t].context) in s.registry)
    && (s.held.Some? ==>
          s.held.value.context < |s.runs| && s.runs[s.held.value.context].execution == s.held.value.execution)
  }

  ghost predicate SameOwners(a: seq<Run>, b: seq<Run>)
  {
    |a| == |b| && forall c | 0 <= c < |a| :: a[c].thread == b[c].thread && a[c].execution == b[c].execution
  }

  /** A thread moved within its run or out of it, or a flag or a count changed. */
  lemma MoveIsOwned(s: Worker, t: string, place: Place, runs: seq<Run>)
    requires Owned(s) && t in s.threads && SameOwners(s.runs, runs)
    requires place.Idle? || (!s.threads[t].Idle? && place.context == s.threads[t].context)
    ensures Owned(s.(threads := s.threads[t := place], runs := runs))
  {
    hide Distinct;
  }

  lemma RegisterIsOwned(s: Worker, t: string)
    requires Owned(s) && t in s.threads && s.threads[t].Idle? && s.pending != []
    ensures Owned(Next(s, Register(t)))
  {
    PutKeeps(s.registry, t, |s.runs|);
    hide Distinct, Put;
    var s' := Next(s, Register(t));
    forall x | x in s'.threads && !s'.threads[x].Idle? ensures Slot(x, s'.threads[x].context) in s'.registry {
    }
  }

  lemma LeaveIsOwned(s: Worker, t: string)
    requires Owned(s) && t in s.threads
    ensures Owned(s.(threads := s.threads[t := Idle], registry := Remove(s.registry, t)))
  {
    RemoveKeeps(s.registry, t);
    hide Distinct, Remove;
  }

  lemma StepIsOwned(s: Worker, step: Step)
    requires Owned(s)
    ensures Owned(Next(s, step)) && Next(s, step).threads.Keys == s.threads.Keys
  {
    match step {
      case Submit(e) =>
      case Drop(t) =>
      case Register(t) =>
        if t in s.threads && s.threads[t].Idle? && s.pending != [] {
          RegisterIsOwned(s, t);
        }
      case Check(t) =>
        if Next(s, step) != s {
          hide Owned;
          MoveIsOwned(s, t, Next(s, step).threads[t], Next(s, step).runs);
        }
      case Act(t, more) =>
        if Next(s, step) != s {
          hide Owned;
          MoveIsOwned(s, t, Next(s, step).threads[t], Next(s, step).runs);
        }
      case Raise(t, started) =>
        if Next(s, step) != s {
          hide Owned;
          MoveIsOwned(s, t, Idle, Next(s, step).runs);
        }
      case Leave(t) =>
        if t in s.threads && s.threads[t].Leaving? {
          hide Owned;
          LeaveIsOwned(s, t);
        }
      case Find(control, e) => FindIsOwned(s, control, e);
      case Flag => FlagIsOwned(s);
    }
  }

  lemma FindIsOwned(s: Worker, control: Control, e: Id)
    requires Owned(s)
    ensures Owned(Next(s, Find(control, e)))
  {
    FirstFound(s.registry, e, KeyOf(s.runs));
    hide Distinct, First;
  }

  lemma FlagIsOwned(s: Worker)
    requires Owned(s)
    ensures Owned(Next(s, Flag))
  {
    hide Distinct;
  }

  lemma {:induction false} RunIsOwned(s: Worker, steps: seq<Step>)
    requires Owned(s)
    ensures Owned(NextAll(s, steps)) && NextAll(s, steps).threads.Keys == s.threads.Keys
  {
    hide Next, Owned;
    if steps != [] {
      RunIsOwned(s, steps[..|steps|-1]);
      StepIsOwned(NextAll(s, steps[..|steps|-1]), steps[|steps|-1]);
    }
  }

  /** The registry never holds more entries than there are pool threads, whatever the interleaving, and each was
      set by its own thread. */
  lemma RegistryIsBounded(pool: set<string>, steps: seq<Step>)
    ensures var s := NextAll(Start(pool), steps);
            && |s.registry| <= |pool|
            && forall e :: e in s.registry ==>
                e.thread in pool && e.context < |s.runs| && s.runs[e.context].thread == e.thread
  {
    RunIsOwned(Start(pool), steps);
    var s := NextAll(Start(pool), steps);
    SizeIsThreads(s.registry);
    SubsetIsSmaller(Threads(s.registry), pool);
  }

  lemma {:induction false} SubsetIsSmaller(a: set<string>, b: set<string>)
    requires a <= b
    ensures |a| <= |b|
  {
    if a != {} {
      var x :| x in a;
      SubsetIsSmaller(a - {x}, b - {x});
    }
  }

  // ---------------------------------------------------------------- control is prompt

  ghost predicate Flagged(s: Worker, c: nat)
  {
    c < |s.runs| && (s.runs[c].paused || s.runs[c].aborted)
  }

  /** No thread can start another action of the run. */
  ghost predicate Over(s: Worker, c: nat)
  {
    c < |s.runs| && forall t :: t in s.threads ==> s.threads[t] != AtCheck(c) && s.threads[t] != Cleared(c)
  }

  /** The run's thread is past its check. */
  ghost predicate PastCheck(s: Worker, c: nat)
  {
    exists t :: t in s.threads && s.threads[t] == Cleared(c)
  }

  ghost function Allowed(s: Worker, c: nat): nat
    requires c < |s.runs|
  {
    s.runs[c].started + if PastCheck(s, c) then 1 else 0
  }

  /** Only one thread is ever in a run. */
  ghost predicate OneThread(s: Worker, c: nat, own: string)
  {
    forall t :: t in s.threads && !s.threads[t].Idle? && s.threads[t].context == c ==> t == own
  }

  lemma OwnThread(s: Worker, c: nat)
    requires Owned(s) && c < |s.runs|
    ensures OneThread(s, c, s.runs[c].thread)
  {
    hide Distinct;
    forall t | t in s.threads && !s.threads[t].Idle? && s.threads[t].context == c ensures s.runs[c].thread == t {
      assert Slot(t, c) in s.registry;
    }
  }

  ghost predicate Prompt(s: Worker, s': Worker, c: nat)
    requires c < |s.runs|
  {
    c < |s'.runs| && (Flagged(s', c) || Over(s', c)) && Allowed(s', c) <= Allowed(s, c)
  }

  /** Nothing happened to the run, except that a flag may have been raised. */
  lemma ElsewhereIsPrompt(s: Worker, s': Worker, c: nat)
    requires (Flagged(s, c) || Over(s, c)) && c < |s'.runs|
    requires s'.runs[c].started == s.runs[c].started && (Flagged(s, c) ==> Flagged(s', c))
    requires s'.threads.Keys == s.threads.Keys
    requires forall t :: t in s.threads ==>
               (s'.threads[t] == AtCheck(c) <==> s.threads[t] == AtCheck(c))
               && (s'.threads[t] == Cleared(c) <==> s.threads[t] == Cleared(c))
    ensures Prompt(s, s', c)
  {
    assert PastCheck(s', c) <==> PastCheck(s, c);
  }

  /** A step of the run's own thread. */
  lemma OwnStepIsPrompt(s: Worker, step: Step, c: nat, own: string)
    requires (Flagged(s, c) || Over(s, c)) && OneThread(s, c, own)
    requires own in s.threads && !s.threads[own].Idle? && s.threads[own].context == c
    requires step == Check(own) || (step.Act? && step.thread == own) || (step.Raise? && step.thread == own)
             || step == Leave(own)
    ensures Prompt(s, Next(s, step), c)
  {
    hide Remove;
    var s' := Next(s, step);
    if s.threads[own].AtCheck? {
      assert !PastCheck(s, c);
    }
    if s' != s {
      assert forall t :: t in s.threads && t != own ==> s'.threads[t] == s.threads[t];
      assert !PastCheck(s', c);
      assert Over(s', c) || Flagged(s, c);
    }
  }

  lemma StepIsPrompt(s: Worker, step: Step, c: nat)
    requires Owned(s) && (Flagged(s, c) || Over(s, c))
    ensures Prompt(s, Next(s, step), c)
  {
    OwnThread(s, c);
    hide Owned, Put, Remove, First, Prompt;
    var own := s.runs[c].thread;
    var s' := Next(s, step);
    if (step.Check? || step.Act? || step.Raise? || step.Leave?) && step.thread in s.threads
       && !s.threads[step.thread].Idle? && s.threads[step.thread].context == c {
      OwnStepIsPrompt(s, step, c, own);
    } else {
      ElsewhereIsPrompt(s, s', c);
    }
  }

  lemma FlaggedIsRun(s: Worker, c: nat)
    requires Flagged(s, c) || Over(s, c)
    ensures c < |s.runs|
  {
  }

  lemma {:induction false} StaysPrompt(s: Worker, steps: seq<Step>, c: nat)
    requires Owned(s) && (Flagged(s, c) || Over(s, c))
    ensures var t := NextAll(s, steps); c < |t.runs| && (Flagged(t, c) || Over(t, c)) && Allowed(t, c) <= Allowed(s, c)
  {
    hide Next, Owned, Flagged, Over, Allowed;
    if steps == [] {
      FlaggedIsRun(s, c);
    } else {
      var before := steps[..|steps|-1];
      StaysPrompt(s, before, c);
      RunIsOwned(s, before);
      StepIsPrompt(NextAll(s, before), steps[|steps|-1], c);
    }
  }

  /** Once a flag of a run is set, at most one more action of it starts, and none unless its thread was already
      past its check: in every interleaving, from every reachable state. */
  lemma ControlIsPrompt(pool: set<string>, steps: seq<Step>, more: seq<Step>, c: nat)
    requires Flagged(NextAll(Start(pool), steps), c)
    ensures var s := NextAll(Start(pool), steps);
            var t := NextAll(s, more);
            c < |t.runs| && t.runs[c].started <= s.runs[c].started + (if PastCheck(s, c) then 1 else 0)
  {
    RunIsOwned(Start(pool), steps);
    StaysPrompt(NextAll(Start(pool), steps), more, c);
  }

  // ---------------------------------------------------------------- control is for one execution

  ghost predicate Asked(steps: seq<Step>, e: Id)
  {
    exists i :: 0 <= i < |steps| && steps[i].Find? && steps[i].execution == e
  }

  /** A run is flagged, or about to be, only when its own execution was asked for. */
  ghost predicate FlagsWereAsked(s: Worker, steps: seq<Step>)
  {
    && (forall c: nat :: Flagged(s, c) ==> Asked(steps, s.runs[c].execution))
    && (s.held.Some? ==> Asked(steps, s.held.value.execution))
  }

  lemma AskedGrows(steps: seq<Step>, step: Step, e: Id)
    ensures Asked(steps + [step], e) <==> Asked(steps, e) || (step.Find? && step.execution == e)
  {
    if Asked(steps, e) {
      var i :| 0 <= i < |steps| && steps[i].Find? && steps[i].execution == e;
      assert (steps + [step])[i] == steps[i];
    }
    if step.Find? {
      assert (steps + [step])[|steps|] == step;
    }
  }

  lemma StepFlagsOnlyAsked(s: Worker, steps: seq<Step>, step: Step)
    requires Owned(s) && FlagsWereAsked(s, steps)
    ensures FlagsWereAsked(Next(s, step), steps + [step])
  {
    hide Asked;
    var t := Next(s, step);
    forall e ensures Asked(steps + [step], e) <==> Asked(steps, e) || (step.Find? && step.execution == e) {
      AskedGrows(steps, step, e);
    }
    forall c: nat | Flagged(t, c) ensures Asked(steps + [step], t.runs[c].execution) {
      if c < |s.runs| {
        assert t.runs[c].execution == s.runs[c].execution;
      }
    }
  }

  lemma StartIsOwned(pool: set<string>)
    ensures Owned(Start(pool))
  {
  }

  lemma NothingFlagged(pool: set<string>)
    ensures FlagsWereAsked(Start(pool), [])
  {
  }

  lemma {:induction false} RunFlagsOnlyAsked(pool: set<string>, steps: seq<Step>)
    ensures FlagsWereAsked(NextAll(Start(pool), steps), steps)
  {
    hide Next, Owned;
    if steps == [] {
      NothingFlagged(pool);
    } else {
      var before := steps[..|steps|-1];
      RunFlagsOnlyAsked(pool, before);
      StartIsOwned(pool);
      RunIsOwned(Start(pool), before);
      StepFlagsOnlyAsked(NextAll(Start(pool), before), before, steps[|steps|-1]);
      assert before + [steps[|steps|-1]] == steps;
    }
  }

  /** No other execution's flags are ever touched: a flagged run's own execution was asked for. */
  lemma OnlyItsOwnExecution(pool: set<string>, steps: seq<Step>, c: nat)
    requires Flagged(NextAll(Start(pool), steps), c)
    ensures exists i ::
      0 <= i < |steps| && steps[i].Find? && steps[i].execution == NextAll(Start(pool), steps).runs[c].execution
  {
    RunFlagsOnlyAsked(pool, steps);
  }

  // ---------------------------------------------------------------- entries left behind

  /** A request to stop a live run flags it exactly when no entry before the run's own is of the same execution. */
  lemma ControlArrives(s: Worker, n: nat, control: Control)
    requires Owned(s) && n < |s.registry|
    ensures var c := s.registry[n].context;
            var e := s.runs[c].execution;
            var t := Next(Next(s, Find(control, e)), Flag);
            (t.runs[c] == if control.PauseControl? then s.runs[c].(paused := true) else s.runs[c].(aborted := true))
            <==> (forall j | 0 <= j < n :: s.runs[s.registry[j].context].execution != e)
                 || (if control.PauseControl? then s.runs[c].paused else s.runs[c].aborted)
  {
    var c := s.registry[n].context;
    var e := s.runs[c].execution;
    assert s.registry[n] in s.registry;
    forall j | 0 <= j < |s.registry| && j != n ensures s.registry[j].context != c {
      assert s.registry[j] in s.registry;
    }
    forall j | 0 <= j < |s.registry|
      ensures KeyOf(s.runs)(s.registry[j].context) == s.runs[s.registry[j].context].execution {
      assert s.registry[j] in s.registry;
    }
    FirstIs(s.registry, e, KeyOf(s.runs), n);
    FirstFound(s.registry, e, KeyOf(s.runs));
  }

  const THREE := {"1", "2", "3"}

  /** An execution that raised on one thread and runs again on another cannot be aborted: the entry left behind
      takes the flag. */
  lemma StaleEntrySwallowsControl()
    ensures var steps := [Submit("e"), Register("1"), Check("1"), Raise("1", true), Submit("e"), Register("2"),
                          Find(AbortControl, "e"), Flag];
            var s := NextAll(Start(THREE), steps);
            && "2" in s.threads && s.threads["2"] == AtCheck(1)
            && s.runs == [Run("e", "1", false, true, 1), Run("e", "2", false, false, 0)]
  {
    hide NextAll;
    var s0 := Start(THREE);
    CountThreads(s0);
    var s4 := Next(Next(Next(Next(s0, Submit("e")), Register("1")), Check("1")), Raise("1", true));
    assert s4.registry == [Slot("1", 0)] && s4.runs == [Run("e", "1", false, false, 1)] && s4.pending == [];
    assert s4.threads.Keys == THREE && s4.threads["2"] == Idle;
    CountThreads(s4);
    SecondHalf(s4);
    Unroll8(s0, Submit("e"), Register("1"), Check("1"), Raise("1", true), Submit("e"), Register("2"),
            Find(AbortControl, "e"), Flag);
  }

  lemma SecondHalf(s: Worker)
    requires s.registry == [Slot("1", 0)] && s.runs == [Run("e", "1", false, false, 1)] && s.pending == []
    requires s.threads.Keys == THREE && s.threads["2"] == Idle
    ensures var t := Next(Next(Next(Next(s, Submit("e")), Register("2")), Find(AbortControl, "e")), Flag);
            && "2" in t.threads && t.threads["2"] == AtCheck(1)
            && t.runs == [Run("e", "1", false, true, 1), Run("e", "2", false, false, 0)]
  {
    CountThreads(s);
    var s6 := Next(Next(s, Submit("e")), Register("2"));
    assert [Slot("1", 0)][1..] == [];
    assert s6.registry == [Slot("1", 0), Slot("2", 1)];
    assert s6.runs == [Run("e", "1", false, false, 1), Run("e", "2", false, false, 0)];
    var s7 := Next(s6, Find(AbortControl, "e"));
    assert s7.held == Some(Held(0, AbortControl, "e"));
  }

  lemma CountThreads(s: Worker)
    requires s.threads.Keys == THREE
    ensures |s.threads| == 3
  {
    assert |s.threads| == |s.threads.Keys|;
    assert |THREE| == 3;
  }

  lemma Unroll8(s: Worker, a: Step, b: Step, c: Step, d: Step, e: Step, f: Step, g: Step, h: Step)
    ensures NextAll(s, [a, b, c, d, e, f, g, h]) ==
            Next(Next(Next(Next(Next(Next(Next(Next(s, a), b), c), d), e), f), g), h)
  {
    hide Next;
    var all := [a, b, c, d, e, f, g, h];
    assert all[..7][..6] == all[..6] && all[..6][..5] == all[..5] && all[..5][..4] == all[..4]
           && all[..4][..3] == all[..3];
    assert all[..3][..2] == all[..2] && all[..2][..1] == all[..1] && all[..1][..0] == [];
    assert NextAll(s, all[..1]) == Next(s, a);
    assert NextAll(s, all[..2]) == Next(NextAll(s, all[..1]), b);
    assert NextAll(s, all[..3]) == Next(NextAll(s, all[..2]), c);
    assert NextAll(s, all[..4]) == Next(NextAll(s, all[..3]), d);
    assert NextAll(s, all[..5]) == Next(NextAll(s, all[..4]), e);
    assert NextAll(s, all[..6]) == Next(NextAll(s, all[..5]), f);
    assert NextAll(s, all[..7]) == Next(NextAll(s, all[..6]), g);
  }

  lemma {:induction false} SubsetOfSameSize(a: set<string>, b: set<string>)
    requires a <= b && |a| >= |b|
    ensures a == b
  {
    if a != {} {
      var x :| x in a;
      SubsetOfSameSize(a - {x}, b - {x});
    }
  }

  /** In every reachable state a request is taken exactly when some pool thread has no entry. */
  lemma TakenExactly(pool: set<string>, steps: seq<Step>, e: Id)
    ensures var s := NextAll(Start(pool), steps);
            Next(s, Submit(e)) == if pool <= Threads(s.registry) then s else s.(pending := s.pending + [e])
  {
    hide NextAll;
    StartIsOwned(pool);
    RunIsOwned(Start(pool), steps);
    var s := NextAll(Start(pool), steps);
    SizeIsThreads(s.registry);
    assert s.threads.Keys == pool;
    assert |s.threads| == |s.threads.Keys|;
    if |s.registry| >= |pool| {
      SubsetOfSameSize(Threads(s.registry), pool);
    } else if pool <= Threads(s.registry) {
      SubsetIsSmaller(pool, Threads(s.registry));
    }
  }

  lemma {:induction false} ThreadsAreFewer(es: seq<Slot<nat>>)
    ensures |Threads(es)| <= |es|
  {
    if es != [] {
      ThreadsAreFewer(es[1..]);
      assert es == [es[0]] + es[1..];
      assert Threads(es) == {es[0].thread} + Threads(es[1..]);
    }
  }

  /** Every thread is idle, but each has left an entry behind and nothing is submitted. */
  ghost predicate Starved(s: Worker)
  {
    && s.pending == [] && s.threads.Keys <= Threads(s.registry)
    && forall t :: t in s.threads ==> s.threads[t].Idle?
  }

  lemma StarvedIsFull(s: Worker)
    requires Starved(s)
    ensures |s.registry| >= |s.threads|
  {
    ThreadsAreFewer(s.registry);
    SubsetIsSmaller(s.threads.Keys, Threads(s.registry));
    assert |s.threads| == |s.threads.Keys|;
  }

  lemma StepStaysStarved(s: Worker, step: Step)
    requires Starved(s)
    ensures Starved(Next(s, step)) && |Next(s, step).runs| == |s.runs|
  {
    StarvedIsFull(s);
    hide Threads, Put, Remove, First;
  }

  /** Entries left behind count against the worker's capacity: once every thread has one, the worker never takes
      another request. */
  lemma {:induction false} StarvedForever(s: Worker, steps: seq<Step>)
    requires Starved(s)
    ensures Starved(NextAll(s, steps)) && |NextAll(s, steps).runs| == |s.runs|
  {
    hide Next, Starved;
    if steps != [] {
      StarvedForever(s, steps[..|steps|-1]);
      StepStaysStarved(NextAll(s, steps[..|steps|-1]), steps[|steps|-1]);
    }
  }
}
