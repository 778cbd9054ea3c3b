/** The runs of a copied workflow are the original's under the renaming of its ids. */
module CopiedRuns {
  import opened Json
  import opened Elements
  import opened Branches
  import opened Engine
  import opened Simulation
  import opened References
  import opened Dumps
  import opened Copying
  import opened StandsFor
  import opened Parameters
  import opened Pausing

  ghost predicate InjectiveSupply(supply: nat -> Id)
  {
    forall i: nat, j: nat :: supply(i) == supply(j) ==> i == j
  }

  ghost predicate DistinctActions(actions: seq<Action>)
  {
    forall i, j | 0 <= i < j < |actions| :: actions[i].id != actions[j].id
  }

  /** The renaming does to the mapped ids what the mapping does. */
  ghost predicate Extends(m: Renaming, mapping: map<Id, Id>)
  {
    forall k :: k in mapping ==> k in m && m[k] == mapping[k]
  }

  // ---------------------------------------------------------------- elements are related to their copies

  lemma ArgsCopySim(m: Renaming, args: seq<Argument>, mapping: map<Id, Id>)
    requires Extends(m, mapping) && ArgReferences(args) <= mapping.Keys
    ensures ArgsSim(m, args, CopyArgs(args, mapping))
  {
    forall i | 0 <= i < |args| ensures ArgSim(m, args[i], CopyArgs(args, mapping)[i]) {
      if args[i].reference.Some? {
        assert args[i].reference.value in ArgReferences(args);
      }
    }
  }

  lemma {:induction false} TransformsCopySim(m: Renaming, ts: seq<Transform>, mapping: map<Id, Id>, supply: nat -> Id,
                                             n: nat)
    requires Extends(m, mapping) && TransformReferences(ts) <= mapping.Keys
    ensures TransformsSim(m, ts, CopyTransforms(ts, mapping, supply, n).value)
    decreases |ts|
  {
    hide ArgsSim, ArgReferences, TransformReferences;
    if ts != [] {
      TransformReferencesKnown(ts, mapping.Keys);
      ArgsCopySim(m, ts[0].arguments, mapping);
      TransformsCopySim(m, ts[1..], mapping, supply, n + 1 + |ts[0].arguments|);
    }
  }

  lemma ConditionCopySim(m: Renaming, c: Condition, mapping: map<Id, Id>, supply: nat -> Id, n: nat)
    requires Extends(m, mapping) && ConditionReferences(c) <= mapping.Keys
    ensures ConditionSim(m, c, CopyCondition(c, mapping, supply, n).value)
  {
    hide ArgsSim, TransformsSim, CopyTransforms, CopyArgs, ArgReferences;
    assert ConditionReferences(c) == ArgReferences(c.arguments) + TransformReferences(c.transforms);
    ArgsCopySim(m, c.arguments, mapping);
    TransformsCopySim(m, c.transforms, mapping, supply, n + 1 + |c.arguments|);
  }

  lemma {:induction false} ConditionsCopySim(m: Renaming, cs: seq<Condition>, mapping: map<Id, Id>, supply: nat -> Id,
                                             n: nat)
    requires Extends(m, mapping) && ConditionsReferences(cs) <= mapping.Keys
    ensures var ds := CopyConditions(cs, mapping, supply, n).value;
            forall i | 0 <= i < |cs| :: ConditionSim(m, cs[i], ds[i])
    decreases |cs|
  {
    hide ConditionSim, ConditionReferences, ConditionsReferences, CopyCondition;
    if cs != [] {
      ConditionsReferencesKnown(cs, mapping.Keys);
      ConditionCopySim(m, cs[0], mapping, supply, n);
      ConditionsCopySim(m, cs[1..], mapping, supply, CopyCondition(cs[0], mapping, supply, n).next);
    }
  }

  lemma {:induction false} ExpressionCopySim(m: Renaming, e: Expression, mapping: map<Id, Id>, supply: nat -> Id,
                                             n: nat)
    requires Extends(m, mapping) && ExpressionReferences(e) <= mapping.Keys
    ensures ExpressionSim(m, e, CopyExpression(e, mapping, supply, n).value)
    decreases e, 1
  {
    hide ConditionSim, ConditionReferences, CopyConditions, CopyExpressions;
    assert ExpressionReferences(e) == ConditionsReferences(e.conditions) + ExpressionsReferences(e.children);
    ConditionsCopySim(m, e.conditions, mapping, supply, n + 1);
    ExpressionsCopySim(m, e.children, mapping, supply, CopyConditions(e.conditions, mapping, supply, n + 1).next);
  }

  lemma {:induction false} ExpressionsCopySim(m: Renaming, es: seq<Expression>, mapping: map<Id, Id>, supply: nat -> Id,
                                              n: nat)
    requires Extends(m, mapping) && ExpressionsReferences(es) <= mapping.Keys
    ensures var ds := CopyExpressions(es, mapping, supply, n).value;
            forall i | 0 <= i < |es| :: ExpressionSim(m, es[i], ds[i])
    decreases es, 0
  {
    hide ExpressionSim, ExpressionReferences, ExpressionsReferences, CopyExpression;
    if es != [] {
      ExpressionsReferencesKnown(es, mapping.Keys);
      ExpressionCopySim(m, es[0], mapping, supply, n);
      ExpressionsCopySim(m, es[1..], mapping, supply, CopyExpression(es[0], mapping, supply, n).next);
    }
  }

  lemma OptionCopySim(m: Renaming, e: Option<Expression>, mapping: map<Id, Id>, supply: nat -> Id, n: nat)
    requires Extends(m, mapping) && OptionReferences(e) <= mapping.Keys
    ensures match e case None => CopyOption(e, mapping, supply, n).value == None
            case Some(x) => CopyOption(e, mapping, supply, n).value.Some?
                            && ExpressionSim(m, x, CopyOption(e, mapping, supply, n).value.value)
  {
    hide ExpressionSim, ExpressionReferences, CopyExpression;
    if e.Some? {
      ExpressionCopySim(m, e.value, mapping, supply, n);
    }
  }

  lemma ActionCopySim(m: Renaming, a: Action, mapping: map<Id, Id>, supply: nat -> Id, n: nat)
    requires Extends(m, mapping) && ActionReferences(a) <= mapping.Keys && a.id in mapping
    ensures ActionSim(m, a, CopyAction(a.(id := mapping[a.id]), mapping, supply, n).value)
  {
    hide ExpressionSim, OptionReferences, CopyOption;
    ArgsCopySim(m, a.arguments, mapping);
    OptionCopySim(m, a.trigger, mapping, supply, (if a.device.Some? then n + 1 else n) + |a.arguments|);
    if a.device.Some? {
      assert a.device.value in [a.device.value];
      ArgsCopySim(m, [a.device.value], mapping);
      assert ArgSim(m, [a.device.value][0], CopyArgs([a.device.value], mapping)[0]);
    }
  }

  lemma EdgeCopySim(m: Renaming, b: Edge, mapping: map<Id, Id>, supply: nat -> Id, n: nat)
    requires Extends(m, mapping) && EdgeNeeds(b) <= mapping.Keys
    ensures EdgeSim(m, b, CopyEdge(MapEnds(b, mapping), mapping, supply, n).value)
  {
    hide ExpressionSim, OptionReferences, CopyOption;
    OptionCopySim(m, b.condition, mapping, supply, n + 1);
  }

  // ---------------------------------------------------------------- the supply only moves forward

  lemma {:induction false} TransformsForward(ts: seq<Transform>, mapping: map<Id, Id>, supply: nat -> Id, n: nat)
    ensures CopyTransforms(ts, mapping, supply, n).next >= n
    decreases |ts|
  {
    if ts != [] {
      TransformsForward(ts[1..], mapping, supply, n + 1 + |ts[0].arguments|);
    }
  }

  lemma {:induction false} ConditionsForward(cs: seq<Condition>, mapping: map<Id, Id>, supply: nat -> Id, n: nat)
    ensures CopyConditions(cs, mapping, supply, n).next >= n
    decreases |cs|
  {
    if cs != [] {
      TransformsForward(cs[0].transforms, mapping, supply, n + 1 + |cs[0].arguments|);
      ConditionsForward(cs[1..], mapping, supply, CopyCondition(cs[0], mapping, supply, n).next);
    }
  }

  lemma {:induction false} ExpressionForward(e: Expression, mapping: map<Id, Id>, supply: nat -> Id, n: nat)
    ensures CopyExpression(e, mapping, supply, n).next >= n
    decreases e, 1
  {
    ConditionsForward(e.conditions, mapping, supply, n + 1);
    ExpressionsForward(e.children, mapping, supply, CopyConditions(e.conditions, mapping, supply, n + 1).next);
  }

  lemma {:induction false} ExpressionsForward(es: seq<Expression>, mapping: map<Id, Id>, supply: nat -> Id, n: nat)
    ensures CopyExpressions(es, mapping, supply, n).next >= n
    decreases es, 0
  {
    hide CopyExpression;
    if es != [] {
      ExpressionForward(es[0], mapping, supply, n);
      ExpressionsForward(es[1..], mapping, supply, CopyExpression(es[0], mapping, supply, n).next);
    }
  }

  lemma OptionForward(e: Option<Expression>, mapping: map<Id, Id>, supply: nat -> Id, n: nat)
    ensures CopyOption(e, mapping, supply, n).next >= n
  {
    if e.Some? {
      ExpressionForward(e.value, mapping, supply, n);
    }
  }

  lemma ActionForward(a: Action, mapping: map<Id, Id>, supply: nat -> Id, n: nat)
    ensures CopyAction(a, mapping, supply, n).next >= n
  {
    OptionForward(a.trigger, mapping, supply, (if a.device.Some? then n + 1 else n) + |a.arguments|);
  }

  lemma EdgeForward(b: Edge, mapping: map<Id, Id>, supply: nat -> Id, n: nat)
    ensures CopyEdge(b, mapping, supply, n).next >= n
  {
    OptionForward(b.condition, mapping, supply, n + 1);
  }

  /** Where the supply stood when the i-th action was copied. */
  lemma {:induction false} ActionsCopyAt(actions: seq<Action>, mapping: map<Id, Id>, supply: nat -> Id, n: nat, i: nat)
    returns (at: nat)
    ensures CopyActions(actions, mapping, supply, n).next >= n
    ensures i < |actions| ==>
              CopyActions(actions, mapping, supply, n).value[i] == CopyAction(actions[i], mapping, supply, at).value
    decreases |actions|
  {
    at := 0;
    if actions != [] {
      var k := |actions| - 1;
      var before := CopyActions(actions[..k], mapping, supply, n);
      at := ActionsCopyAt(actions[..k], mapping, supply, n, i);
      ActionForward(actions[k], mapping, supply, before.next);
      hide CopyAction;
      if i == k {
        at := before.next;
      }
    }
  }

  lemma {:induction false} EdgesCopyAt(edges: seq<Edge>, mapping: map<Id, Id>, supply: nat -> Id, n: nat, i: nat)
    returns (at: nat)
    ensures at >= n && CopyEdges(edges, mapping, supply, n).next >= n
    ensures i < |edges| ==>
              CopyEdges(edges, mapping, supply, n).value[i] ==
                  CopyEdge(MapEnds(edges[i], mapping), mapping, supply, at).value
    decreases |edges|
  {
    at := n;
    if edges != [] {
      var k := |edges| - 1;
      var before := CopyEdges(edges[..k], mapping, supply, n);
      at := EdgesCopyAt(edges[..k], mapping, supply, n, i);
      EdgeForward(MapEnds(edges[k], mapping), mapping, supply, before.next);
      hide CopyEdge, MapEnds;
      if i == k {
        at := before.next;
      }
    }
  }

  // ---------------------------------------------------------------- the whole workflow

  lemma FrontIsDistinct(actions: seq<Action>)
    requires DistinctActions(actions) && actions != []
    ensures DistinctActions(actions[..|actions|-1])
  {
  }

  lemma {:induction false} NewIdAt(actions: seq<Action>, supply: nat -> Id, n: nat, i: nat)
    requires DistinctActions(actions) && i < |actions|
    ensures actions[i].id in NewIds(actions, supply, n) && NewIds(actions, supply, n)[actions[i].id] == supply(n + i)
    decreases |actions|
  {
    var k := |actions| - 1;
    var front := actions[..k];
    ActionsSnoc(front, actions[k], supply, n);
    assert front + [actions[k]] == actions;
    hide NewIds;
    if i < k {
      assert actions[i].id != actions[k].id && front[i] == actions[i];
      FrontIsDistinct(actions);
      hide DistinctActions;
      NewIdAt(front, supply, n, i);
    }
  }

  /** What copying needs: every reference and branch end names an action, action ids are distinct and are not
      branch ids, and no fresh id is drawn twice. */
  ghost predicate Copyable(f: Workflow, supply: nat -> Id)
  {
    Closed(f) && DistinctActions(f.actions) && ActionIds(f) !! BranchIds(f) && InjectiveSupply(supply)
  }

  /** The renaming of a copy: old action ids to new ones, and `kept` ids to themselves. */
  ghost function CopyRenaming(f: Workflow, supply: nat -> Id, kept: set<Id>): (m: Renaming)
    ensures forall k :: k in m <==> k in ActionIds(f) || k in kept
    ensures Extends(m, NewIds(f.actions, supply, 1))
    ensures forall k :: k in kept && k !in ActionIds(f) ==> m[k] == k
  {
    var mapping := NewIds(f.actions, supply, 1);
    assert mapping.Keys == ActionIds(f);
    imap k: Id | k in mapping || k in kept :: if k in mapping then mapping[k] else k
  }

  /** Ids that are no action's and no branch's, and are never drawn. */
  ghost predicate Untouched(f: Workflow, supply: nat -> Id, kept: set<Id>)
  {
    kept !! ActionIds(f) && kept !! BranchIds(f) && forall i: nat :: supply(i) !in kept
  }

  lemma CopyRenamingMeans(f: Workflow, supply: nat -> Id, kept: set<Id>, k: Id) returns (i: nat)
    requires DistinctActions(f.actions) && k in ActionIds(f)
    ensures i < |f.actions| && f.actions[i].id == k && CopyRenaming(f, supply, kept)[k] == supply(1 + i)
  {
    hide NewIds, DistinctActions, CopyRenaming;
    var a :| a in f.actions && a.id == k;
    i :| 0 <= i < |f.actions| && f.actions[i] == a;
    NewIdAt(f.actions, supply, 1, i);
  }

  lemma CopyRenamingIsInjective(f: Workflow, supply: nat -> Id, kept: set<Id>)
    requires DistinctActions(f.actions) && InjectiveSupply(supply) && Untouched(f, supply, kept)
    ensures Injective(CopyRenaming(f, supply, kept))
  {
    var m := CopyRenaming(f, supply, kept);
    hide CopyRenaming;
    forall x, y | x in m && y in m && m[x] == m[y] ensures x == y {
      if x in ActionIds(f) {
        var i := CopyRenamingMeans(f, supply, kept, x);
      }
      if y in ActionIds(f) {
        var j := CopyRenamingMeans(f, supply, kept, y);
      }
    }
  }

  lemma ActionAtCopied(f: Workflow, supply: nat -> Id, m: Renaming, i: nat)
    requires Copyable(f, supply) && Extends(m, NewIds(f.actions, supply, 1)) && i < |f.actions|
    ensures |CopyWorkflow(f, supply).actions| == |f.actions|
    ensures ActionSim(m, f.actions[i], CopyWorkflow(f, supply).actions[i])
  {
    hide *;
    var mapping, renamed := NewIds(f.actions, supply, 1), WithNewIds(f.actions, supply, 1);
    var a := f.actions[i];
    assert a in f.actions && renamed[i] == a.(id := supply(1 + i));
    CopiedActions(f, supply);
    KnownIds(f, supply);
    var at := ActionsCopyAt(renamed, mapping, supply, 1 + |f.actions|, i);
    NewIdAt(f.actions, supply, 1, i);
    ReferencesAreKnown(f, a, mapping.Keys);
    ActionCopySim(m, a, mapping, supply, at);
  }

  lemma KnownIds(f: Workflow, supply: nat -> Id)
    requires Copyable(f, supply)
    ensures WorkflowReferences(f) <= NewIds(f.actions, supply, 1).Keys && DistinctActions(f.actions)
  {
  }

  lemma CopiedActions(f: Workflow, supply: nat -> Id)
    ensures CopyWorkflow(f, supply).actions ==
            CopyActions(WithNewIds(f.actions, supply, 1), NewIds(f.actions, supply, 1), supply, 1 + |f.actions|).value
    ensures |CopyWorkflow(f, supply).actions| == |f.actions|
  {
  }

  lemma ReferencesAreKnown(f: Workflow, a: Action, known: set<Id>)
    requires WorkflowReferences(f) <= known && a in f.actions
    ensures ActionReferences(a) <= known
  {
    hide ActionReferences;
    forall r | r in ActionReferences(a) ensures r in known {
      assert r in WorkflowReferences(f);
    }
  }

  lemma NeedsAreKnown(f: Workflow, b: Edge)
    requires Closed(f) && b in f.branches
    ensures EdgeNeeds(b) <= ActionIds(f)
  {
    hide OptionReferences, ActionReferences;
    assert b.source in BranchEnds(f) && b.destination in BranchEnds(f);
    forall r | r in OptionReferences(b.condition) ensures r in ActionIds(f) {
      assert r in WorkflowReferences(f);
    }
  }

  lemma EdgeAtCopied(f: Workflow, supply: nat -> Id, m: Renaming, i: nat) returns (at: nat)
    requires Copyable(f, supply) && Extends(m, NewIds(f.actions, supply, 1)) && i < |f.branches|
    ensures |CopyWorkflow(f, supply).branches| == |f.branches|
    ensures EdgeSim(m, f.branches[i], CopyWorkflow(f, supply).branches[i])
    ensures at > |f.actions| && CopyWorkflow(f, supply).branches[i].id == supply(at)
  {
    hide EdgeSim, CopyActions, CopyEdges, CopyEdge, MapEnds, NewIds, WithNewIds, EdgeNeeds, Closed, DistinctActions,
      Extends;
    var mapping, renamed := NewIds(f.actions, supply, 1), WithNewIds(f.actions, supply, 1);
    var _ := ActionsCopyAt(renamed, mapping, supply, 1 + |f.actions|, 0);
    at := EdgesCopyAt(f.branches, mapping, supply, CopyActions(renamed, mapping, supply, 1 + |f.actions|).next, i);
    NeedsAreKnown(f, f.branches[i]);
    assert mapping.Keys == ActionIds(f);
    EdgeCopySim(m, f.branches[i], mapping, supply, at);
    CopyEdgeId(MapEnds(f.branches[i], mapping), mapping, supply, at);
  }

  lemma CopyEdgeId(b: Edge, mapping: map<Id, Id>, supply: nat -> Id, n: nat)
    ensures CopyEdge(b, mapping, supply, n).value.id == supply(n)
  {
    hide CopyOption;
  }

  lemma CopySim(f: Workflow, supply: nat -> Id, kept: set<Id>)
    requires Copyable(f, supply) && Untouched(f, supply, kept)
    ensures WorkflowSim(CopyRenaming(f, supply, kept), f, CopyWorkflow(f, supply))
    ensures Injective(CopyRenaming(f, supply, kept))
  {
    var m, g := CopyRenaming(f, supply, kept), CopyWorkflow(f, supply);
    hide ActionSim, EdgeSim, CopyRenaming, CopyWorkflow, Closed;
    CopyLengths(f, supply);
    CopyRenamingIsInjective(f, supply, kept);
    forall i | 0 <= i < |f.actions| ensures ActionSim(m, f.actions[i], g.actions[i]) {
      ActionAtCopied(f, supply, m, i);
    }
    forall i | 0 <= i < |f.branches| ensures EdgeSim(m, f.branches[i], g.branches[i]) {
      var _ := EdgeAtCopied(f, supply, m, i);
    }
    forall i | 0 <= i < |f.branches| ensures f.branches[i].id !in m {
      assert f.branches[i].id in BranchIds(f);
    }
    forall i, k | 0 <= i < |g.branches| && k in m ensures m[k] != g.branches[i].id {
      var at := EdgeAtCopied(f, supply, m, i);
      if k in ActionIds(f) {
        var j := CopyRenamingMeans(f, supply, kept, k);
      }
    }
  }

  lemma CopyLengths(f: Workflow, supply: nat -> Id)
    ensures |CopyWorkflow(f, supply).actions| == |f.actions| && |CopyWorkflow(f, supply).branches| == |f.branches|
    ensures CopyWorkflow(f, supply).environment == f.environment
  {
  }

  // ---------------------------------------------------------------- starting states

  /** The variables a run starts with: the workflow's and the run's own. */
  function Variables(f: Workflow, overrides: map<Id, Value>): set<Id>
  {
    f.environment.Keys + overrides.Keys
  }

  /** The variables a run starts with belong to no action, old or new. */
  ghost predicate Separate(f: Workflow, supply: nat -> Id, variables: set<Id>)
  {
    variables !! ActionIds(f) && forall i: nat :: supply(i) !in variables
  }

  /** Actions get their new ids, and variables keep theirs unless a branch counter takes it. */
  ghost function RunRenaming(f: Workflow, supply: nat -> Id, overrides: map<Id, Value>): Renaming
  {
    CopyRenaming(f, supply, Variables(f, overrides) - BranchIds(f))
  }

  /** A requested run of the workflow, and the same request for the copy. */
  function RunOf(f: Workflow, start: Id, args: seq<Argument>, user: string, overrides: map<Id, Value>): State
  {
    NewState(f, start, args, user, overrides)
  }

  ghost function CopyRunOf(f: Workflow, supply: nat -> Id, start: Id, args: seq<Argument>, user: string,
                           overrides: map<Id, Value>): State
    requires start in ActionIds(f)
  {
    var mapping := NewIds(f.actions, supply, 1);
    NewState(CopyWorkflow(f, supply), mapping[start], CopyArgs(args, mapping), user, overrides)
  }

  ghost function OriginalRun(w: World, f: Workflow, start: Id, args: seq<Argument>, user: string,
                             overrides: map<Id, Value>,
                             schedule: seq<Flags>): Run
  {
    ExecuteWorkflow(w, f, RunOf(f, start, args, user, overrides), schedule)
  }

  ghost function CopyRun(w: World, f: Workflow, supply: nat -> Id, start: Id, args: seq<Argument>, user: string,
                         overrides: map<Id, Value>, schedule: seq<Flags>): Run
    requires start in ActionIds(f)
  {
    ExecuteWorkflow(w, CopyWorkflow(f, supply), CopyRunOf(f, supply, start, args, user, overrides), schedule)
  }

  /** What a starting accumulator holds. */
  lemma StartHolds(f: Workflow, start: Id, args: seq<Argument>, user: string, overrides: map<Id, Value>, k: Id)
    requires k !in BranchIds(f)
    ensures var acc := NewState(f, start, args, user, overrides).cells.acc;
            && (k in acc <==> k in f.environment || k in overrides)
            && (k in acc ==> acc[k] == if k in overrides then overrides[k] else f.environment[k])
  {
  }

  lemma StartEmptiness(f: Workflow, g: Workflow, start: Id, start': Id, args: seq<Argument>, args': seq<Argument>,
                       user: string, overrides: map<Id, Value>)
    requires f.environment == g.environment && |f.branches| == |g.branches|
    ensures NewState(f, start, args, user, overrides).cells.acc == map[] <==>
            NewState(g, start', args', user, overrides).cells.acc == map[]
  {
    if f.branches != [] {
      assert f.branches[0].id in ZeroedCounters(f) && g.branches[0].id in ZeroedCounters(g);
      if user == "" {
        assert f.branches[0].id in NewState(f, start, args, user, overrides).cells.acc;
        assert g.branches[0].id in NewState(g, start', args', user, overrides).cells.acc;
      }
    }
  }

  lemma NewBranchIds(f: Workflow, supply: nat -> Id, kept: set<Id>, k: Id)
    requires Copyable(f, supply) && Untouched(f, supply, kept) && (k in ActionIds(f) || k in kept)
    ensures CopyRenaming(f, supply, kept)[k] !in BranchIds(CopyWorkflow(f, supply))
  {
    var m, g := CopyRenaming(f, supply, kept), CopyWorkflow(f, supply);
    CopySim(f, supply, kept);
    hide CopyRenaming, CopyWorkflow, Copyable, Untouched, ActionSim, EdgeSim;
    forall b | b in g.branches ensures b.id != m[k] {
      var j :| 0 <= j < |g.branches| && g.branches[j] == b;
    }
  }

  lemma StartEntriesRelated(f: Workflow, supply: nat -> Id, kept: set<Id>, start: Id, start': Id, args: seq<Argument>,
                            args': seq<Argument>,
                            user: string, overrides: map<Id, Value>)
    requires Copyable(f, supply) && Untouched(f, supply, kept) && Separate(f, supply, Variables(f, overrides))
    ensures AccSim(CopyRenaming(f, supply, kept), NewState(f, start, args, user, overrides).cells.acc,
                   NewState(CopyWorkflow(f, supply), start', args', user, overrides).cells.acc)
  {
    hide CopyWorkflow, CopyRenaming, Closed, ActionIds, BranchIds, NewState, InjectiveSupply, DistinctActions;
    var m, g := CopyRenaming(f, supply, kept), CopyWorkflow(f, supply);
    CopyLengths(f, supply);
    StartEmptiness(f, g, start, start', args, args', user, overrides);
    var a := NewState(f, start, args, user, overrides).cells.acc;
    var b := NewState(g, start', args', user, overrides).cells.acc;
    forall k | k in m
      ensures (k in a <==> m[k] in b) && (k in a ==> a[k] == b[m[k]])
    {
      NewBranchIds(f, supply, kept, k);
      StartHolds(f, start, args, user, overrides, k);
      StartHolds(g, start', args', user, overrides, m[k]);
      if k in ActionIds(f) {
        var _ := CopyRenamingMeans(f, supply, kept, k);
      }
    }
  }

  lemma StartIsRelated(f: Workflow, supply: nat -> Id, kept: set<Id>, start: Id, args: seq<Argument>, user: string,
                       overrides: map<Id, Value>)
    requires Copyable(f, supply) && Untouched(f, supply, kept) && Separate(f, supply, Variables(f, overrides))
    requires start in ActionIds(f) && ArgReferences(args) <= ActionIds(f)
    requires var s := NewState(f, start, args, user, overrides);
             s.cells.acc == map[] ==> DeviceUnseen(CopyRenaming(f, supply, kept), f, s)
    ensures StateSim(CopyRenaming(f, supply, kept), f, CopyWorkflow(f, supply),
                     NewState(f, start, args, user, overrides),
                     CopyRunOf(f, supply, start, args, user, overrides))
  {
    hide CopyWorkflow, CopyRenaming, Copyable, Separate, Untouched, ArgsSim, ArgSim, CopyArgs, NewIds, AccSim,
      ArgReferences, ZeroedCounters,
      DeviceUnseen;
    var m, mapping := CopyRenaming(f, supply, kept), NewIds(f.actions, supply, 1);
    assert mapping.Keys == ActionIds(f);
    ArgsCopySim(m, args, mapping);
    CopyLengths(f, supply);
    StartEntriesRelated(f, supply, kept, start, mapping[start], args, CopyArgs(args, mapping), user, overrides);
  }

  // ---------------------------------------------------------------- runs

  /** What can be observed of two runs: their events, the branches examined, the outcome, and the entries of the
      accumulator at the end. */
  ghost predicate Alike(m: Renaming, x: Run, y: Run)
  {
    && TraceSim(m, x.trace, y.trace) && x.examined == y.examined && OutcomeSim(m, x.outcome, y.outcome)
    && AccSim(m, LastAccumulator(x), LastAccumulator(y))
  }

  lemma RelatedAreAlike(m: Renaming, f: Workflow, g: Workflow, x: Run, y: Run)
    requires RunSim(m, f, g, x, y) && EndsTrace(x)
    ensures Alike(m, x, y)
  {
    assert x.outcome.Completed? ==> EventSim(m, x.trace[|x.trace|-1], y.trace[|y.trace|-1]);
  }

  lemma SeparateIsUntouched(f: Workflow, supply: nat -> Id, overrides: map<Id, Value>)
    requires Separate(f, supply, Variables(f, overrides))
    ensures Untouched(f, supply, Variables(f, overrides) - BranchIds(f))
  {
  }

  /** Every run of the copy is the original's under the renaming, from the renamed start: the same actions by
      their new ids, the same results and statuses, the same branches taken, the same outcome, and the same
      entries of actions and variables. This holds for every schedule of control flags, and requires something of
      the start action's device only when the run starts from an empty accumulator. */
  lemma CopyRunsAlike(w: World, f: Workflow, supply: nat -> Id, start: Id, args: seq<Argument>, user: string,
                      overrides: map<Id, Value>, schedule: seq<Flags>)
    requires Copyable(f, supply) && start in ActionIds(f) && ArgReferences(args) <= ActionIds(f)
    requires Separate(f, supply, Variables(f, overrides))
    requires var s := RunOf(f, start, args, user, overrides);
             s.cells.acc == map[] ==> DeviceUnseen(RunRenaming(f, supply, overrides), f, s)
    ensures var m := RunRenaming(f, supply, overrides);
            var x := OriginalRun(w, f, start, args, user, overrides, schedule);
            var y := CopyRun(w, f, supply, start, args, user, overrides, schedule);
            RunSim(m, f, CopyWorkflow(f, supply), x, y) && Alike(m, x, y)
  {
    var kept := Variables(f, overrides) - BranchIds(f);
    RenamingOfRun(f, supply, overrides);
    SeparateIsUntouched(f, supply, overrides);
    hide RunRenaming, CopyRenaming, CopyWorkflow, Copyable, CopyRunOf, NewState, Variables, BranchIds, WorkflowSim,
      StateSim, DeviceUnseen,
      Injective, Separate, Untouched, RunSim, Alike, ExecuteWorkflow, ArgReferences, ActionIds;
    StartIsRelated(f, supply, kept, start, args, user, overrides);
    CopySim(f, supply, kept);
    RelatedExecutions(w, RunRenaming(f, supply, overrides), f, CopyWorkflow(f, supply),
                      RunOf(f, start, args, user, overrides),
                      CopyRunOf(f, supply, start, args, user, overrides), schedule);
  }

  lemma RelatedExecutions(w: World, m: Renaming, f: Workflow, g: Workflow, s: State, t: State, schedule: seq<Flags>)
    requires Injective(m) && WorkflowSim(m, f, g) && StateSim(m, f, g, s, t)
    ensures Engine.Fits(f, s) && Engine.Fits(g, t)
    ensures var x, y := ExecuteWorkflow(w, f, s, schedule), ExecuteWorkflow(w, g, t, schedule);
            RunSim(m, f, g, x, y) && Alike(m, x, y)
  {
    StatesFit(m, f, g, s, t);
    hide RunFrom, WorkflowSim, StateSim, Injective, RunSim, Alike;
    RunsAreRelated(w, m, f, g, s, t, schedule);
    StartEventSim(m, f, g, RunFrom(w, f, s, schedule), RunFrom(w, g, t, schedule));
    RunEndsTrace(w, f, s, schedule);
    RelatedAreAlike(m, f, g, ExecuteWorkflow(w, f, s, schedule), ExecuteWorkflow(w, g, t, schedule));
  }

  lemma StatesFit(m: Renaming, f: Workflow, g: Workflow, s: State, t: State)
    requires StateSim(m, f, g, s, t)
    ensures Engine.Fits(f, s) && Engine.Fits(g, t)
  {
  }

  lemma StartEventSim(m: Renaming, f: Workflow, g: Workflow, x: Run, y: Run)
    requires RunSim(m, f, g, x, y)
    ensures RunSim(m, f, g, x.(trace := [WorkflowExecutionStart] + x.trace),
                   y.(trace := [WorkflowExecutionStart] + y.trace))
  {
    hide StateSim;
    var e := WorkflowExecutionStart;
    assert EventSim(m, e, e);
    hide EventSim;
  }

  // ---------------------------------------------------------------- exactly when the copy's runs are alike

  /** An API that accepts the arguments, whatever their values. */
  function Accepting(args: seq<Argument>): (api: seq<Param>)
    ensures forall a :: a in args ==> exists p :: p in api && p.name == a.name
    ensures forall p :: p in api ==> p.default.None? && !p.required
  {
    if args == [] then [] else [Param(args[0].name, None, false, Null)] + Accepting(args[1..])
  }

  /** A world in which every action returns its device. */
  function ShowingDevices(args: seq<Argument>): World
  {
    var none := DataApi("", []);
    World((_, _) => Accepting(args), (_, _) => none, (_, _) => none, (_, v) => Accepts(v),
          (_, _, device: Option<Value>, _) =>
              ActionResult(match device case None => Null case Some(v) => v, Some("shown")),
          (_, _, _) => None, (_, _, _) => None, (_, _) => "", (_, _, _) => Some(false), Null, _ => None)
  }

  lemma AcceptsAll(args: seq<Argument>, like: seq<Argument>)
    requires Parameters.Names(args) == Parameters.Names(like)
    ensures CheckParameters(ShowingDevices(like), Accepting(like), args, map[]).Accepts?
  {
    var w, api := ShowingDevices(like), Accepting(like);
    forall a | a in args ensures exists p :: p in api && p.name == a.name {
      assert a.name in Parameters.Names(args);
      var b :| b in like && b.name == a.name;
    }
    forall n | n in ApiDict(api) ensures !ParamFit(w, ApiDict(api)[n], args, map[]).Bad?
        && !ParamFit(w, ApiDict(api)[n], args, map[]).Escapes? {
    }
    CheckIsExact(w, api, args, map[]);
  }

  lemma SameNames(m: Renaming, xs: seq<Argument>, ys: seq<Argument>)
    requires ArgsSim(m, xs, ys)
    ensures Parameters.Names(xs) == Parameters.Names(ys)
  {
    forall i | 0 <= i < |xs| ensures xs[i].name in Parameters.Names(ys) && ys[i].name in Parameters.Names(xs) {
      assert ArgSim(m, xs[i], ys[i]) && xs[i] in xs && ys[i] in ys;
    }
  }

  /** The device a reference shows while the accumulator is empty is the id referred to. */
  lemma DeviceIsShown(w: World, f: Workflow, s: State, a: Action, like: seq<Argument>)
    requires Engine.Fits(f, s) && NextAction(f, s) == Some(a) && s.cells.acc == map[] && w == ShowingDevices(like)
    requires a.device.Some? && a.device.value.value == Null && a.trigger.None?
    requires Parameters.Names(if s.args != [] then s.args else a.arguments) == Parameters.Names(like)
    ensures var trace := ExecuteWorkflow(w, f, s, [QUIET]).trace;
            |trace| > 2 && trace[2] == ActionExecutionSuccess(a.id, s.execution,
                                                              ReferenceValue(a.device.value.reference), "shown")
  {
    hide CheckParameters, Choose, Outgoing, Accepting, RunFrom;
    var shown := ReferenceValue(a.device.value.reference);
    AcceptsAll(if s.args != [] then s.args else a.arguments, like);
    var done := Execute(w, a, s.args, s.resume, s.execution, map[]);
    assert done.Executed? && done.trace ==
           [ActionStarted(a.id, s.execution), ActionExecutionSuccess(a.id, s.execution, shown, "shown")];
    var turn := TakeTurn(w, f, s, a, QUIET);
    assert done.trace <= if turn.Went? then turn.step.trace else turn.run.trace;
    RunStarts(w, f, s, a);
  }

  lemma RunStarts(w: World, f: Workflow, s: State, a: Action)
    requires Engine.Fits(f, s) && NextAction(f, s) == Some(a)
    ensures var turn := TakeTurn(w, f, s, a, QUIET);
            (if turn.Went? then turn.step.trace else turn.run.trace) <= RunFrom(w, f, s, [QUIET]).trace
  {
    hide TakeTurn;
    assert [QUIET][0] == QUIET;
  }

  lemma NextOfCopy(f: Workflow, supply: nat -> Id, m: Renaming, s: State, t: State)
    requires Copyable(f, supply) && Extends(m, NewIds(f.actions, supply, 1)) && Injective(m)
    requires NextAction(f, s).Some? && t.next == Some(m[NextAction(f, s).value.id]) && NextAction(f, s).value.id in m
    ensures NextAction(CopyWorkflow(f, supply), t).Some?
    ensures ActionSim(m, NextAction(f, s).value, NextAction(CopyWorkflow(f, supply), t).value)
  {
    var g := CopyWorkflow(f, supply);
    hide CopyWorkflow, ActionSim, Copyable, Extends, NewIds, Injective;
    CopyLengths(f, supply);
    forall i | 0 <= i < |f.actions| ensures ActionSim(m, f.actions[i], g.actions[i]) {
      ActionAtCopied(f, supply, m, i);
    }
    FindActionSim(m, f.actions, g.actions, s.next.value);
  }

  /** A start action with a device the renaming changes, from an empty accumulator, has a run that the copy's is
      not like. */
  lemma DevicesTellApart(f: Workflow, supply: nat -> Id, kept: set<Id>, start: Id, args: seq<Argument>, user: string,
                         overrides: map<Id, Value>)
    returns (w: World)
    requires Copyable(f, supply) && Untouched(f, supply, kept) && start in ActionIds(f)
             && ArgReferences(args) <= ActionIds(f)
    requires var s := RunOf(f, start, args, user, overrides);
             s.cells.acc == map[] && !DeviceUnseen(CopyRenaming(f, supply, kept), f, s)
    ensures !TraceSim(CopyRenaming(f, supply, kept), OriginalRun(w, f, start, args, user, overrides, [QUIET]).trace,
                      CopyRun(w, f, supply, start, args, user, overrides, [QUIET]).trace)
  {
    var m, g, mapping := CopyRenaming(f, supply, kept), CopyWorkflow(f, supply), NewIds(f.actions, supply, 1);
    var s, t := RunOf(f, start, args, user, overrides), CopyRunOf(f, supply, start, args, user, overrides);
    assert mapping.Keys == ActionIds(f) && m[start] == mapping[start];
    var a := NextAction(f, s).value;
    var effective := if args != [] then args else a.arguments;
    w := ShowingDevices(effective);
    hide CopyRenaming, CopyWorkflow, Copyable, NewIds, ExecuteWorkflow, TraceSim, EventSim, ExpressionSim;
    CopyRenamingIsInjective(f, supply, kept);
    CopyLengths(f, supply);
    NextOfCopy(f, supply, m, s, t);
    var b := NextAction(g, t).value;
    ArgsCopySim(m, args, mapping);
    SameNames(m, effective, if t.args != [] then t.args else b.arguments);
    StartEmptiness(f, g, start, mapping[start], args, CopyArgs(args, mapping), user, overrides);
    DeviceIsShown(w, f, s, a, effective);
    DeviceIsShown(w, g, t, b, effective);
    DifferentResults(m, ExecuteWorkflow(w, f, s, [QUIET]).trace, ExecuteWorkflow(w, g, t, [QUIET]).trace);
  }

  lemma DifferentResults(m: Renaming, x: seq<Event>, y: seq<Event>)
    requires |x| > 2 && |y| > 2 && x[2].ActionExecutionSuccess? && y[2].ActionExecutionSuccess?
             && x[2].result != y[2].result
    ensures !TraceSim(m, x, y)
  {
    assert !EventSim(m, x[2], y[2]);
  }

  /** The copy's run of a request is like the original's. */
  ghost predicate AlikeRuns(w: World, f: Workflow, supply: nat -> Id, start: Id, args: seq<Argument>, user: string,
                            overrides: map<Id, Value>, schedule: seq<Flags>)
    requires start in ActionIds(f)
  {
    Alike(RunRenaming(f, supply, overrides), OriginalRun(w, f, start, args, user, overrides, schedule),
          CopyRun(w, f, supply, start, args, user, overrides, schedule))
  }

  lemma NotAlike(m: Renaming, x: Run, y: Run)
    requires !TraceSim(m, x.trace, y.trace)
    ensures !Alike(m, x, y)
  {
  }

  lemma SomeRunsDiffer(f: Workflow, supply: nat -> Id, start: Id, args: seq<Argument>, user: string,
                       overrides: map<Id, Value>)
    returns (w: World)
    requires Copyable(f, supply) && start in ActionIds(f) && ArgReferences(args) <= ActionIds(f)
    requires Separate(f, supply, Variables(f, overrides))
    requires var s := RunOf(f, start, args, user, overrides);
             s.cells.acc == map[] && !DeviceUnseen(RunRenaming(f, supply, overrides), f, s)
    ensures !AlikeRuns(w, f, supply, start, args, user, overrides, [QUIET])
  {
    RenamingOfRun(f, supply, overrides);
    SeparateIsUntouched(f, supply, overrides);
    hide Alike, OriginalRun, CopyRun, RunRenaming, CopyRenaming, Copyable, Separate, Untouched, Variables, BranchIds,
      ArgReferences, ActionIds,
      RunOf, DeviceUnseen, TraceSim;
    w := DevicesTellApart(f, supply, Variables(f, overrides) - BranchIds(f), start, args, user, overrides);
    NotAlike(RunRenaming(f, supply, overrides), OriginalRun(w, f, start, args, user, overrides, [QUIET]),
             CopyRun(w, f, supply, start, args, user, overrides, [QUIET]));
  }

  /** In all worlds and under all schedules the copy's runs are like the original's, exactly when the starting
      accumulator is not empty, or the start action waits for a trigger or has no device that the renaming
      changes. */
  lemma AlikeExactly(f: Workflow, supply: nat -> Id, start: Id, args: seq<Argument>, user: string,
                     overrides: map<Id, Value>)
    requires Copyable(f, supply) && start in ActionIds(f) && ArgReferences(args) <= ActionIds(f)
    requires Separate(f, supply, Variables(f, overrides))
    ensures var s := RunOf(f, start, args, user, overrides);
            (forall w: World, schedule :: AlikeRuns(w, f, supply, start, args, user, overrides, schedule))
            <==> (s.cells.acc != map[] || DeviceUnseen(RunRenaming(f, supply, overrides), f, s))
  {
    var s := RunOf(f, start, args, user, overrides);
    hide Alike, RunSim, OriginalRun, CopyRun, RunRenaming, RunOf, Copyable, Separate, DeviceUnseen;
    if s.cells.acc != map[] || DeviceUnseen(RunRenaming(f, supply, overrides), f, s) {
      forall w: World, schedule ensures AlikeRuns(w, f, supply, start, args, user, overrides, schedule) {
        CopyRunsAlike(w, f, supply, start, args, user, overrides, schedule);
      }
    } else {
      var w := SomeRunsDiffer(f, supply, start, args, user, overrides);
      assert !AlikeRuns(w, f, supply, start, args, user, overrides, [QUIET]);
    }
  }

  lemma RenamingOfRun(f: Workflow, supply: nat -> Id, overrides: map<Id, Value>)
    ensures RunRenaming(f, supply, overrides) == CopyRenaming(f, supply, Variables(f, overrides) - BranchIds(f))
  {
  }

  /** One action alone: from an empty accumulator it and its copy resolve to different devices exactly when the
      device is a reference that the renaming changes. */
  lemma DeviceSeenThroughEmptyAccumulator(w: World, a: Action, mapping: map<Id, Id>)
    ensures var device := match a.device case None => None case Some(d) => Some(CopyArg(d, mapping));
            ResolveDevice(w, a, map[]) == ResolveDevice(w, a.(device := device), map[])
            <==> match a.device
                 case None => true
                 case Some(d) => d.value != Null || d.reference.None?
                                 || (d.reference.value in mapping ==> mapping[d.reference.value] == d.reference.value)
  {
  }

  /** Copying through JSON preserves meaning: regenerating the ids of the dumped workflow succeeds, the result is
      the dump of one workflow only, and that one's runs are the original's under the renaming. */
  lemma CopyingPreservesMeaning(w: World, f: Workflow, supply: nat -> Id, copy: Workflow, args: seq<Argument>,
                                user: string,
                                overrides: map<Id, Value>, schedule: seq<Flags>)
    requires PlainWorkflow(f) && Copyable(f, supply) && ArgReferences(args) <= ActionIds(f)
    requires Separate(f, supply, Variables(f, overrides))
    requires var s := NewState(f, f.start, args, user, overrides);
             s.cells.acc == map[] ==> DeviceUnseen(RunRenaming(f, supply, overrides), f, s)
    ensures RegenerateWorkflow(Dump(f), supply) == Some(Dump(CopyWorkflow(f, supply)))
    ensures RegenerateWorkflow(Dump(f), supply) == Some(Dump(copy)) ==>
              var m := RunRenaming(f, supply, overrides);
              var x := ExecuteWorkflow(w, f, NewState(f, f.start, args, user, overrides), schedule);
              var y := ExecuteWorkflow(w, copy,
                                       NewState(copy, copy.start, CopyArgs(args, NewIds(f.actions, supply, 1)), user,
                                                overrides), schedule);
              RunSim(m, f, copy, x, y) && Alike(m, x, y)
  {
    assert f.start in ActionIds(f);
    StartOfCopy(f, supply);
    hide RunSim, Alike, CopyWorkflow, RunRenaming, RegenerateWorkflow, NewState, ExecuteWorkflow, Dump, DeviceUnseen,
      Separate, NewIds;
    CopyIsExact(f, supply);
    CopyRunsAlike(w, f, supply, f.start, args, user, overrides, schedule);
    if RegenerateWorkflow(Dump(f), supply) == Some(Dump(copy)) {
      DumpIsInjective(copy, CopyWorkflow(f, supply));
    }
  }

  lemma StartOfCopy(f: Workflow, supply: nat -> Id)
    requires f.start in ActionIds(f)
    ensures f.start in NewIds(f.actions, supply, 1)
            && CopyWorkflow(f, supply).start == NewIds(f.actions, supply, 1)[f.start]
  {
  }
}
