/** Validation of stored elements, and what a valid workflow's runs may rely on. */
module Validity {
  import opened Json
  import opened Elements
  import opened Engine
  import opened References

  // ---------------------------------------------------------------- the recursive check

  /** An element as the recursive check sees it: its own errors, and its children, each a list or a single
      element that may be missing. */
  datatype Node = Node(errors: seq<string>, children: seq<Child>)

  datatype Child = Group(members: seq<Member>) | Single(member: Member)

  datatype Member = Missing | Present(node: Node)

  predicate IsValid(n: Node)
  {
    n.errors == [] && ChildrenValid(n.children)
  }

  predicate ChildrenValid(cs: seq<Child>)
  {
    cs != [] ==> ChildValid(cs[0]) && ChildrenValid(cs[1..])
  }

  predicate ChildValid(c: Child)
  {
    match c case Group(ms) => MembersValid(ms) case Single(m) => MemberValid(m)
  }

  predicate MembersValid(ms: seq<Member>)
  {
    ms != [] ==> MemberValid(ms[0]) && MembersValid(ms[1..])
  }

  predicate MemberValid(m: Member)
  {
    m.Present? ==> IsValid(m.node)
  }

  /** A way down to an element: which child, and which member of it. */
  datatype Turning = Turning(child: nat, member: nat)

  function Down(n: Node, t: Turning): (m: Member)
    ensures m.Present? ==> m.node < n
  {
    if t.child >= |n.children| then Missing
    else match n.children[t.child]
      case Group(ms) => if t.member < |ms| then ms[t.member] else Missing
      case Single(m) => if t.member == 0 then m else Missing
  }

  function At(n: Node, path: seq<Turning>): Member
  {
    if path == [] then Present(n)
    else match Down(n, path[0]) case Missing => Missing case Present(m) => At(m, path[1..])
  }

  lemma {:induction false} MembersMean(ms: seq<Member>)
    ensures MembersValid(ms) <==> forall i | 0 <= i < |ms| :: MemberValid(ms[i])
  {
    if ms != [] {
      MembersMean(ms[1..]);
      assert ms == [ms[0]] + ms[1..];
    }
  }

  lemma {:induction false} ChildrenMean(cs: seq<Child>)
    ensures ChildrenValid(cs) <==> forall i | 0 <= i < |cs| :: ChildValid(cs[i])
  {
    if cs != [] {
      ChildrenMean(cs[1..]);
      assert cs == [cs[0]] + cs[1..];
    }
  }

  lemma ValidOneDown(n: Node)
    ensures IsValid(n) <==> n.errors == [] && forall t :: MemberValid(Down(n, t))
  {
    ChildrenMean(n.children);
    forall i | 0 <= i < |n.children| && n.children[i].Group? {
      MembersMean(n.children[i].members);
    }
    if forall t :: MemberValid(Down(n, t)) {
      forall i | 0 <= i < |n.children| ensures ChildValid(n.children[i]) {
        match n.children[i] {
          case Group(ms) =>
            forall j | 0 <= j < |ms| ensures MemberValid(ms[j]) {
              assert Down(n, Turning(i, j)) == ms[j];
            }
          case Single(m) => assert Down(n, Turning(i, 0)) == m;
        }
      }
    }
  }

  lemma {:induction false} ErrorBelow(n: Node, path: seq<Turning>)
    requires IsValid(n) && At(n, path).Present?
    ensures At(n, path).node.errors == []
    decreases |path|
  {
    if path != [] {
      ValidOneDown(n);
      ErrorBelow(Down(n, path[0]).node, path[1..]);
    }
  }

  lemma {:induction false} FindError(n: Node) returns (path: seq<Turning>)
    requires !IsValid(n)
    ensures At(n, path).Present? && At(n, path).node.errors != []
    decreases n
  {
    if n.errors != [] {
      path := [];
    } else {
      ValidOneDown(n);
      var t :| !MemberValid(Down(n, t));
      var rest := FindError(Down(n, t).node);
      path := [t] + rest;
      assert path[1..] == rest;
    }
  }

  /** The check passes exactly when no element anywhere below, or the element itself, has errors. */
  lemma ValidExactly(n: Node)
    ensures IsValid(n) <==> forall path :: At(n, path).Present? ==> At(n, path).node.errors == []
  {
    if IsValid(n) {
      forall path | At(n, path).Present? ensures At(n, path).node.errors == [] {
        ErrorBelow(n, path);
      }
    } else {
      var path := FindError(n);
    }
  }

  // ---------------------------------------------------------------- a workflow's own errors

  datatype Problem = StartMissing | StartUnknown(start: Id) | SourceUnknown(id: Id) | DestinationUnknown(id: Id)

  /** What every workflow without problems satisfies. */
  ghost predicate WellFormed(f: Workflow)
  {
    (f.actions != [] ==> f.start != "" && f.start in ActionIds(f)) && BranchEnds(f) <= ActionIds(f)
  }

  /** Workflow.validate: collects the workflow's own errors and combines them with those of its elements. An
      empty start is a missing one. */
  method Validate(f: Workflow, elements: seq<Child>) returns (errors: seq<Problem>, isValid: bool)
    ensures errors == [] <==> WellFormed(f)
    ensures isValid <==> WellFormed(f) && ChildrenValid(elements)
  {
    var actionIds := [];
    for i := 0 to |f.actions|
      invariant |actionIds| == i && forall k | 0 <= k < i :: actionIds[k] == f.actions[k].id
    {
      actionIds := actionIds + [f.actions[i].id];
    }
    ListedIds(f, actionIds);
    errors := [];
    if f.start == "" && f.actions != [] {
      errors := errors + [StartMissing];
    } else if f.actions != [] && f.start !in actionIds {
      errors := errors + [StartUnknown(f.start)];
    }
    ghost var startErrors := errors;
    for i := 0 to |f.branches|
      invariant errors == [] <==> startErrors == [] && EndsListed(f, i)
    {
      if f.branches[i].source !in actionIds {
        errors := errors + [SourceUnknown(f.branches[i].source)];
      }
      if f.branches[i].destination !in actionIds {
        errors := errors + [DestinationUnknown(f.branches[i].destination)];
      }
    }
    EndsAre(f);
    isValid := errors == [] && ChildrenValid(elements);
  }

  ghost predicate EndsListed(f: Workflow, n: nat)
    requires n <= |f.branches|
  {
    forall k | 0 <= k < n :: f.branches[k].source in ActionIds(f) && f.branches[k].destination in ActionIds(f)
  }

  lemma EndsAre(f: Workflow)
    ensures EndsListed(f, |f.branches|) <==> BranchEnds(f) <= ActionIds(f)
  {
    if BranchEnds(f) <= ActionIds(f) {
      forall k | 0 <= k < |f.branches| ensures f.branches[k].source in ActionIds(f)
          && f.branches[k].destination in ActionIds(f) {
        assert f.branches[k].source in BranchEnds(f) && f.branches[k].destination in BranchEnds(f);
      }
    }
  }

  lemma ListedIds(f: Workflow, ids: seq<Id>)
    requires |ids| == |f.actions| && forall k | 0 <= k < |ids| :: ids[k] == f.actions[k].id
    ensures forall id :: id in ids <==> id in ActionIds(f)
  {
    forall id | id in ActionIds(f) ensures id in ids {
      var a :| a in f.actions && a.id == id;
      var k :| 0 <= k < |f.actions| && f.actions[k] == a;
      assert ids[k] == id;
    }
  }

  // ---------------------------------------------------------------- runs walk along branches

  /** Where a run stands in the graph, read off its events. */
  datatype Walk =
    | Heading(to: Id)
    | Inside(at: Id)
    | Judging(from: Id, status: string)
    | Stopped

  predicate Leads(f: Workflow, i: nat, from: Id, status: string)
  {
    i < |f.branches| && f.branches[i].source == from && f.branches[i].status == status
  }

  /** The events a walk allows: an action only where the run is heading, branches only of that action and of the
      status it returned, and an end while heading somewhere only if that place is not a listed action. */
  ghost function Move(f: Workflow, p: Walk, e: Event): Option<Walk>
  {
    match p
    case Heading(to) =>
      (match e
       case ActionStarted(a, _) => if a == to && a in ActionIds(f) then Some(Inside(a)) else None
       case WorkflowPaused(a) => if a == to then Some(Stopped) else None
       case WorkflowAborted => Some(Stopped)
       case WorkflowShutdown(_) => if to !in ActionIds(f) then Some(Stopped) else None
       case _ => None)
    case Inside(at) =>
      (match e
       case ActionArgumentsInvalid(a, _) => if a == at then Some(Judging(a, INVALID_ARGUMENTS)) else None
       case ActionExecutionError(a, _, _, status) => if a == at then Some(Judging(a, status)) else None
       case ActionExecutionSuccess(a, _, _, status) => if a == at then Some(Judging(a, status)) else None
       case TriggerActionAwaitingData(a, _) => if a == at then Some(Stopped) else None
       case _ => None)
    case Judging(from, status) =>
      (match e
       case BranchTaken(i) => if Leads(f, i, from, status) then Some(Heading(f.branches[i].destination)) else None
       case BranchNotTaken(i) => if Leads(f, i, from, status) then Some(p) else None
       case WorkflowShutdown(_) => Some(Stopped)
       case _ => None)
    case Stopped => None
  }

  ghost function MoveAll(f: Workflow, p: Option<Walk>, trace: seq<Event>): Option<Walk>
    decreases |trace|
  {
    if p.None? || trace == [] then p else MoveAll(f, Move(f, p.value, trace[0]), trace[1..])
  }

  lemma {:induction false} MoveConcat(f: Workflow, p: Option<Walk>, a: seq<Event>, b: seq<Event>)
    ensures MoveAll(f, p, a + b) == MoveAll(f, MoveAll(f, p, a), b)
    decreases |a|
  {
    if a == [] {
      assert a + b == b;
    } else if p.Some? {
      assert (a + b)[1..] == a[1..] + b;
      MoveConcat(f, Move(f, p.value, a[0]), a[1..], b);
    }
  }

  lemma MoveOne(f: Workflow, p: Walk, e: Event)
    ensures MoveAll(f, Some(p), [e]) == Move(f, p, e)
  {
    assert [e][1..] == [];
  }

  lemma {:induction false} ChoiceIsWalked(w: World, f: Workflow, js: seq<nat>, status: string, a: Id, cells: Cells)
    requires Positions(f, js) && |f.branches| == |cells.counters| && a in cells.acc
    requires forall k | 0 <= k < |js| :: f.branches[js[k]].source == a
    ensures var c := Choose(w, f, js, status, a, cells);
            MoveAll(f, Some(Judging(a, status)), c.trace) ==
            Some(if c.taken.Some? then Heading(f.branches[c.taken.value].destination) else Judging(a, status))
  {
    if js != [] {
      hide ActionIds;
      var counted := Count(f, js[0], cells);
      if Takeable(w, f.branches[js[0]], status, a, counted.acc) {
        MoveOne(f, Judging(a, status), BranchTaken(js[0]));
      } else if !Breaks(w, f.branches[js[0]], status, a, counted.acc) {
        var rest := Choose(w, f, js[1..], status, a, counted);
        ChoiceIsWalked(w, f, js[1..], status, a, counted);
        assert ([BranchNotTaken(js[0])] + rest.trace)[1..] == rest.trace;
        assert [] + rest.trace == rest.trace;
      }
    }
  }

  lemma ExecutionIsWalked(w: World, f: Workflow, a: Action, args: seq<Argument>, resume: bool, n: nat, acc: Accumulator)
    requires a.id in ActionIds(f)
    ensures var done := Execute(w, a, args, resume, n, acc);
            && (done.Awaiting? ==> MoveAll(f, Some(Heading(a.id)), done.trace) == Some(Stopped))
            && (done.Threw? ==> MoveAll(f, Some(Heading(a.id)), done.trace) == Some(Inside(a.id)))
            && (done.Executed? ==> MoveAll(f, Some(Heading(a.id)), done.trace) == Some(Judging(a.id, done.status)))
  {
    hide ResolveDevice, CheckedArguments, ActionIds;
    var done := Execute(w, a, args, resume, n, acc);
    if done.Threw? {
      MoveOne(f, Heading(a.id), ActionStarted(a.id, n));
    } else if !done.Crashed? {
      assert done.trace == [done.trace[0]] + [done.trace[1]];
      MoveConcat(f, Some(Heading(a.id)), [done.trace[0]], [done.trace[1]]);
      MoveOne(f, Heading(a.id), done.trace[0]);
      MoveOne(f, Inside(a.id), done.trace[1]);
    }
  }

  /** Where a state's run is: heading for the next action, or past its last one. */
  ghost predicate Stands(p: Walk, s: State)
  {
    if s.next.Some? then p == Heading(s.next.value) else p.Judging?
  }

  lemma TurnIsWalked(w: World, f: Workflow, s: State, a: Action, flags: Flags)
    requires Engine.Fits(f, s) && a in f.actions
    ensures var turn := TakeTurn(w, f, s, a, flags);
            var p := MoveAll(f, Some(Heading(a.id)), if turn.Ended? then turn.run.trace else turn.step.trace);
            p.Some? && (turn.Went? ==> Stands(p.value, turn.step.state))
  {
    hide Execute, Choose, Outgoing, ActionIds;
    assert a.id in ActionIds(f) by { ListedAction(f, a); }
    MoveOne(f, Heading(a.id), WorkflowPaused(a.id));
    MoveOne(f, Heading(a.id), WorkflowAborted);
    ExecutionIsWalked(w, f, a, s.args, s.resume, s.execution, s.cells.acc);
    var done := Execute(w, a, s.args, s.resume, s.execution, s.cells.acc);
    if done.Executed? {
      var written := Written(s, a, done.result);
      var js := Outgoing(f, a.id, 0);
      forall k | 0 <= k < |js| ensures f.branches[js[k]].source == a.id {
        assert js[k] in js;
      }
      ChoiceIsWalked(w, f, js, done.status, a.id, written);
      MoveConcat(f, Some(Heading(a.id)), done.trace, Following(w, f, s, a, done).trace);
    }
  }

  lemma ListedAction(f: Workflow, a: Action)
    requires a in f.actions
    ensures a.id in ActionIds(f)
  {
  }

  lemma ShutdownIsWalked(f: Workflow, p: Walk, s: State)
    requires Stands(p, s) && NextAction(f, s).None?
    ensures MoveAll(f, Some(p), Shutdown(s).trace).Some?
  {
    MoveOne(f, p, WorkflowShutdown(s.cells.acc));
    assert s.next.Some? ==> forall a :: a in f.actions ==> a.id != s.next.value;
  }

  /** Every run of every workflow is a walk: it executes only listed actions, consecutive actions are joined by a
      branch of the status just returned, and it ends while heading somewhere only for want of that action. */
  lemma {:induction false} RunsAreWalks(w: World, f: Workflow, p: Walk, s: State, schedule: seq<Flags>)
    requires Engine.Fits(f, s) && Stands(p, s)
    ensures MoveAll(f, Some(p), RunFrom(w, f, s, schedule).trace).Some?
    decreases |schedule|
  {
    hide TakeTurn, Move, Stands, ActionIds;
    var action := NextAction(f, s);
    if action.None? {
      ShutdownIsWalked(f, p, s);
    } else if schedule != [] {
      HeadsForNext(f, p, s);
      TurnIsWalked(w, f, s, action.value, schedule[0]);
      var turn := TakeTurn(w, f, s, action.value, schedule[0]);
      if turn.Went? {
        var p' := MoveAll(f, Some(p), turn.step.trace).value;
        RunsAreWalks(w, f, p', turn.step.state, schedule[1..]);
        MoveConcat(f, Some(p), turn.step.trace, RunFrom(w, f, turn.step.state, schedule[1..]).trace);
      }
    }
  }

  lemma HeadsForNext(f: Workflow, p: Walk, s: State)
    requires Stands(p, s) && NextAction(f, s).Some?
    ensures p == Heading(NextAction(f, s).value.id)
  {
  }

  lemma {:induction false} MovesSoFar(f: Workflow, p: Walk, trace: seq<Event>, k: nat)
    requires k < |trace| && MoveAll(f, Some(p), trace).Some?
    ensures MoveAll(f, Some(p), trace[..k]).Some?
    ensures MoveAll(f, Some(p), trace[..k+1]) == Move(f, MoveAll(f, Some(p), trace[..k]).value, trace[k])
    ensures Move(f, MoveAll(f, Some(p), trace[..k]).value, trace[k]).Some?
  {
    hide Move;
    MoveConcat(f, Some(p), trace[..k], trace[k..]);
    assert trace[..k] + trace[k..] == trace;
    MoveConcat(f, Some(p), trace[..k], [trace[k]]);
    assert trace[..k] + [trace[k]] == trace[..k+1];
    NothingFromNone(f, trace[k..]);
    var q := MoveAll(f, Some(p), trace[..k]);
    MoveOne(f, q.value, trace[k]);
    MoveConcat(f, q, [trace[k]], trace[k+1..]);
    assert [trace[k]] + trace[k+1..] == trace[k..];
    NothingFromNone(f, trace[k+1..]);
  }

  lemma NothingFromNone(f: Workflow, trace: seq<Event>)
    ensures MoveAll(f, None, trace).None?
  {
  }

  /** Event k of a walk: an action started is a listed one; a branch taken leads to a listed action, which comes
      next unless the run is stopped before it; and a shutdown comes only after an action none of whose branches
      was taken. */
  ghost predicate SafeAt(f: Workflow, start: Walk, trace: seq<Event>, k: nat)
    requires k < |trace|
  {
    && (trace[k].ActionStarted? ==> trace[k].action in ActionIds(f))
    && (trace[k].BranchTaken? ==>
          && trace[k].branch < |f.branches|
          && var to := f.branches[trace[k].branch].destination;
             && to in ActionIds(f)
             && (k + 1 < |trace| ==> ComesTo(trace[k+1], to)))
    && (trace[k].WorkflowShutdown? ==>
          MoveAll(f, Some(start), trace[..k]).Some? && MoveAll(f, Some(start), trace[..k]).value.Judging?)
  }

  predicate ComesTo(e: Event, to: Id)
  {
    (e.ActionStarted? && e.action == to) || e == WorkflowPaused(to) || e == WorkflowAborted
  }

  lemma ListedMoves(f: Workflow, p: Walk, e: Event)
    requires Move(f, p, e).Some? && (p.Heading? ==> p.to in ActionIds(f))
    ensures e.ActionStarted? ==> e.action in ActionIds(f)
    ensures e.BranchTaken? ==>
              e.branch < |f.branches| && Move(f, p, e) == Some(Heading(f.branches[e.branch].destination))
    ensures e.WorkflowShutdown? ==> p.Judging?
    ensures p.Heading? ==> ComesTo(e, p.to)
  {
    hide ActionIds;
  }

  lemma WalksAreSafe(f: Workflow, start: Walk, trace: seq<Event>, k: nat)
    requires WellFormed(f) && start.Heading? && start.to in ActionIds(f)
    requires k < |trace| && MoveAll(f, Some(start), trace).Some?
    ensures SafeAt(f, start, trace, k)
  {
    hide ActionIds, Move, MoveAll, WellFormed, ComesTo;
    MovesSoFar(f, start, trace, k);
    HeadingsAreListed(f, start, trace, k);
    ListedMoves(f, MoveAll(f, Some(start), trace[..k]).value, trace[k]);
    if trace[k].BranchTaken? {
      DestinationIsListed(f, trace[k].branch);
      if k + 1 < |trace| {
        MovesSoFar(f, start, trace, k + 1);
        ListedMoves(f, MoveAll(f, Some(start), trace[..k+1]).value, trace[k+1]);
      }
    }
  }

  /** In a workflow that passes the check, every event of every run from a listed start is safe. */
  lemma ValidRunsAreSafe(w: World, f: Workflow, s: State, schedule: seq<Flags>, k: nat)
    requires WellFormed(f) && Engine.Fits(f, s) && s.next.Some? && s.next.value in ActionIds(f)
    requires k < |RunFrom(w, f, s, schedule).trace|
    ensures SafeAt(f, Heading(s.next.value), RunFrom(w, f, s, schedule).trace, k)
  {
    hide RunFrom, WellFormed, ActionIds, SafeAt;
    RunsAreWalks(w, f, Heading(s.next.value), s, schedule);
    WalksAreSafe(f, Heading(s.next.value), RunFrom(w, f, s, schedule).trace, k);
  }

  lemma DestinationIsListed(f: Workflow, i: nat)
    requires WellFormed(f) && i < |f.branches|
    ensures f.branches[i].destination in ActionIds(f)
  {
    assert f.branches[i].destination in BranchEnds(f);
  }

  lemma {:induction false} HeadingsAreListed(f: Workflow, start: Walk, trace: seq<Event>, k: nat)
    requires WellFormed(f) && start.Heading? && start.to in ActionIds(f)
    requires k <= |trace| && MoveAll(f, Some(start), trace).Some?
    ensures var p := MoveAll(f, Some(start), trace[..k]); p.Some? && (p.value.Heading? ==> p.value.to in ActionIds(f))
  {
    hide ActionIds;
    if k == 0 {
      assert trace[..0] == [];
    } else {
      HeadingsAreListed(f, start, trace, k - 1);
      MovesSoFar(f, start, trace, k - 1);
      if trace[k-1].BranchTaken? {
        DestinationIsListed(f, trace[k-1].branch);
      }
    }
  }
}
