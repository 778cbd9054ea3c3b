/** The registry of running workflows in a worker, keyed by pool thread. */
module Registry {
  import opened Json
  import opened Elements

  /** An entry of the registry. Entries stand in the order of the dictionary's keys. */
  datatype Slot<T> = Slot(thread: string, context: T)

  /** Sets a thread's entry: a key that is already there keeps its place. */
  function Put<T>(es: seq<Slot<T>>, thread: string, context: T): (r: seq<Slot<T>>)
    ensures forall e :: e in r ==> e in es || e == Slot(thread, context)
  {
    if es == [] then [Slot(thread, context)]
    else if es[0].thread == thread then [Slot(thread, context)] + es[1..]
    else [es[0]] + Put(es[1..], thread, context)
  }

  function Remove<T>(es: seq<Slot<T>>, thread: string): (r: seq<Slot<T>>)
    ensures forall e :: e in r ==> e in es
  {
    if es == [] then [] else if es[0].thread == thread then es[1..] else [es[0]] + Remove(es[1..], thread)
  }

  /** The first context of an execution. */
  function First<T>(es: seq<Slot<T>>, execution: Id, key: T -> Id): Option<T>
  {
    if es == [] then None else if key(es[0].context) == execution then Some(es[0].context)
        else First(es[1..], execution, key)
  }

  /** Whether a worker that may run so many workflows takes no further request. */
  predicate AtCapacity<T>(es: seq<Slot<T>>, max: nat)
  {
    |es| >= max
  }

  ghost function Threads<T>(es: seq<Slot<T>>): set<string>
  {
    set e | e in es :: e.thread
  }

  ghost predicate Distinct<T>(es: seq<Slot<T>>)
  {
    forall i, j | 0 <= i < j < |es| :: es[i].thread != es[j].thread
  }

  lemma {:induction false} PutKeeps<T>(es: seq<Slot<T>>, thread: string, context: T)
    requires Distinct(es)
    ensures var r := Put(es, thread, context);
            && Distinct(r) && Threads(r) == Threads(es) + {thread}
            && forall e :: e in r <==> e == Slot(thread, context) || (e in es && e.thread != thread)
  {
    if es != [] {
      assert es == [es[0]] + es[1..];
      if es[0].thread != thread {
        PutKeeps(es[1..], thread, context);
        var rest := Put(es[1..], thread, context);
        assert Put(es, thread, context) == [es[0]] + rest;
        forall j | 0 <= j < |rest| ensures rest[j].thread != es[0].thread {
          assert rest[j] in rest;
        }
      }
    }
  }

  lemma {:induction false} RemoveKeeps<T>(es: seq<Slot<T>>, thread: string)
    requires Distinct(es)
    ensures var r := Remove(es, thread);
            Distinct(r) && Threads(r) == Threads(es) - {thread} && forall e :: e in r <==> e in es && e.thread != thread
  {
    if es != [] {
      assert es == [es[0]] + es[1..];
      if es[0].thread != thread {
        RemoveKeeps(es[1..], thread);
        var rest := Remove(es[1..], thread);
        forall j | 0 <= j < |rest| ensures rest[j].thread != es[0].thread {
          assert rest[j] in rest;
        }
      }
    }
  }

  /** A control message reaches a context exactly when no entry before its own is of the same execution. */
  lemma {:induction false} FirstIs<T>(es: seq<Slot<T>>, execution: Id, key: T -> Id, n: nat)
    requires n < |es| && key(es[n].context) == execution && forall j | 0 <= j < |es| :: j != n ==>
             es[j].context != es[n].context
    ensures First(es, execution, key) == Some(es[n].context) <==>
            forall j | 0 <= j < n :: key(es[j].context) != execution
  {
    if n > 0 {
      if key(es[0].context) != execution {
        FirstIs(es[1..], execution, key, n - 1);
        assert (forall j | 0 <= j < n :: key(es[j].context) != execution) <==>
               (forall j | 0 <= j < n - 1 :: key(es[1..][j].context) != execution) by {
          if forall j | 0 <= j < n - 1 :: key(es[1..][j].context) != execution {
            forall j | 0 <= j < n ensures key(es[j].context) != execution {
              if j > 0 { assert es[1..][j-1] == es[j]; }
            }
          }
        }
      } else {
        assert First(es, execution, key) == Some(es[0].context);
      }
    }
  }

  lemma {:induction false} FirstFound<T>(es: seq<Slot<T>>, execution: Id, key: T -> Id)
    ensures var r := First(es, execution, key);
            match r
            case Some(c) => key(c) == execution && exists e :: e in es && e.context == c
            case None => forall e :: e in es ==> key(e.context) != execution
  {
    if es != [] && key(es[0].context) != execution {
      FirstFound(es[1..], execution, key);
    }
  }

  lemma {:induction false} SizeIsThreads<T>(es: seq<Slot<T>>)
    requires Distinct(es)
    ensures |es| == |Threads(es)|
  {
    if es != [] {
      var n := |es| - 1;
      assert es == es[..n] + [es[n]];
      SizeIsThreads(es[..n]);
      assert Threads(es) == Threads(es[..n]) + {es[n].thread};
    }
  }

  /** Where the entry goes when no entry before position i is the thread's. */
  lemma {:induction false} PutAt<T>(es: seq<Slot<T>>, thread: string, context: T, i: nat)
    requires i <= |es| && (forall k | 0 <= k < i :: es[k].thread != thread) && (i < |es| ==> es[i].thread == thread)
    ensures Put(es, thread, context) == if i < |es| then es[i := Slot(thread, context)]
            else es + [Slot(thread, context)]
  {
    if i > 0 {
      PutAt(es[1..], thread, context, i - 1);
      assert es == [es[0]] + es[1..];
    }
  }

  lemma {:induction false} RemoveAt<T>(es: seq<Slot<T>>, thread: string, i: nat)
    requires i <= |es| && (forall k | 0 <= k < i :: es[k].thread != thread) && (i < |es| ==> es[i].thread == thread)
    ensures Remove(es, thread) == if i < |es| then es[..i] + es[i+1..] else es
  {
    if i > 0 {
      RemoveAt(es[1..], thread, i - 1);
    }
  }

  /** The part of an execution context that control messages change. */
  class Context {
    const execution: Id
    var isPaused: bool
    var isAborted: bool

    constructor (execution: Id)
      ensures this.execution == execution && !isPaused && !isAborted
    {
      this.execution := execution;
      isPaused, isAborted := false, false;
    }

    method Pause()
      modifies this
      ensures isPaused && isAborted == old(isAborted)
    {
      isPaused := true;
    }

    method Abort()
      modifies this
      ensures isAborted && isPaused == old(isPaused)
    {
      isAborted := true;
    }
  }

  function ExecutionOf(c: Context): Id
  {
    c.execution
  }

  class WorkflowExecutor {
    const maxWorkflows: nat
    var executing: seq<Slot<Context>>

    constructor (maxWorkflows: nat)
      ensures this.maxWorkflows == maxWorkflows && executing == []
    {
      this.maxWorkflows := maxWorkflows;
      executing := [];
    }

    predicate IsAtCapacity()
      reads this
    {
      AtCapacity(executing, maxWorkflows)
    }

    method Register(thread: string, context: Context)
      modifies this
      ensures executing == Put(old(executing), thread, context)
    {
      hide Put;
      var i := 0;
      while i < |executing| && executing[i].thread != thread
        invariant 0 <= i <= |executing| && executing == old(executing)
        invariant forall k | 0 <= k < i :: executing[k].thread != thread
      {
        i := i + 1;
      }
      PutAt(executing, thread, context, i);
      executing := if i < |executing| then executing[i := Slot(thread, context)]
          else executing + [Slot(thread, context)];
    }

    method Unregister(thread: string)
      modifies this
      ensures executing == Remove(old(executing), thread)
    {
      hide Remove;
      var i := 0;
      while i < |executing| && executing[i].thread != thread
        invariant 0 <= i <= |executing| && executing == old(executing)
        invariant forall k | 0 <= k < i :: executing[k].thread != thread
      {
        i := i + 1;
      }
      RemoveAt(executing, thread, i);
      if i < |executing| {
        executing := executing[..i] + executing[i+1..];
      }
    }

    method GetWorkflowByExecutionId(execution: Id) returns (c: Option<Context>)
      ensures c == First(executing, execution, ExecutionOf)
    {
      for i := 0 to |executing|
        invariant First(executing, execution, ExecutionOf) == First(executing[i..], execution, ExecutionOf)
      {
        assert executing[i..][1..] == executing[i+1..];
        if executing[i].context.execution == execution {
          return Some(executing[i].context);
        }
      }
      c := None;
    }

    /** Flags the first context of the execution and nothing else. */
    method Pause(execution: Id)
      modifies set e | e in executing && e.context.execution == execution :: e.context
      ensures forall e :: e in executing ==>
                e.context.isPaused == (old(e.context.isPaused)
                                       || First(executing, execution, ExecutionOf) == Some(e.context))
                && e.context.isAborted == old(e.context.isAborted)
    {
      FirstFound(executing, execution, ExecutionOf);
      var c := GetWorkflowByExecutionId(execution);
      if c.Some? {
        c.value.Pause();
      }
    }

    method Abort(execution: Id)
      modifies set e | e in executing && e.context.execution == execution :: e.context
      ensures forall e :: e in executing ==>
                e.context.isAborted == (old(e.context.isAborted)
                                        || First(executing, execution, ExecutionOf) == Some(e.context))
                && e.context.isPaused == old(e.context.isPaused)
    {
      FirstFound(executing, execution, ExecutionOf);
      var c := GetWorkflowByExecutionId(execution);
      if c.Some? {
        c.value.Abort();
      }
    }
  }
}
