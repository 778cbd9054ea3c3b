/** Copying a workflow: regenerating all its ids succeeds exactly when the workflow is closed, and the copy
    runs as the original does. */
module Copying {
  import opened Json
  import opened Elements
  import opened References
  import opened Regenerate
  import opened Dumps

  /** A dumped workflow: a dictionary with known keys, its actions and branches JSON objects. */
  datatype WorkflowDict = WorkflowDict(id: Id, start: Id, actions: seq<Value>, branches: seq<Value>,
                                       environment: map<Id, Value>)

  function SetField(es: seq<Entry>, key: string, v: Value): seq<Entry>
  {
    if es == [] then [Entry(key, v)]
    else if es[0].key == key then [Entry(key, v)] + es[1..]
    else [es[0]] + SetField(es[1..], key, v)
  }

  /** A string field of an object; None is the KeyError of a missing one. */
  function IdField(j: Value, key: string): Option<Id>
  {
    if !j.Dict? then None
    else match Lookup(j.entries, key) case Some(Str(s)) => Some(s) case _ => None
  }

  /** Actions with new ids, and the mapping from old ids to new. */
  datatype Renamed = Renamed(actions: seq<Value>, mapping: map<Id, Id>)

  function RenameActions(actions: seq<Value>, supply: nat -> Id, n: nat): Option<Renamed>
  {
    if actions == [] then Some(Renamed([], map[]))
    else
      var k := |actions| - 1;
      match RenameActions(actions[..k], supply, n)
      case None => None
      case Some(before) =>
        match IdField(actions[k], "id")
        case None => None
        case Some(prior) =>
          var newId := supply(n + k);
          Some(Renamed(before.actions + [Dict(SetField(actions[k].entries, "id", Str(newId)))],
                       before.mapping[prior := newId]))
  }

  function RegenerateActions(actions: seq<Value>, mapping: map<Id, Id>, supply: nat -> Id,
                             n: nat): Option<Drawn<seq<Value>>>
  {
    if actions == [] then Some(Drawn([], n))
    else
      var k := |actions| - 1;
      match RegenerateActions(actions[..k], mapping, supply, n)
      case None => None
      case Some(before) =>
        if !actions[k].Dict? then None
        else
          match RegenerateObject(actions[k], mapping, supply, false, false, before.next)
          case None => None
          case Some(d) => Some(Drawn(before.value + [d.value], d.next))
  }

  /** One branch: both its ends go through the mapping, then it is regenerated. */
  function RegenerateBranch(b: Value, mapping: map<Id, Id>, supply: nat -> Id, n: nat): Option<Drawn<Value>>
  {
    match (IdField(b, "source_id"), IdField(b, "destination_id"))
    case (Some(source), Some(destination)) =>
      if source in mapping && destination in mapping then
        var es := SetField(b.entries, "source_id", Str(mapping[source]));
        var es' := SetField(es, "destination_id", Str(mapping[destination]));
        RegenerateObject(Dict(es'), mapping, supply, true, false, n)
      else None
    case _ => None
  }

  function RegenerateBranches(branches: seq<Value>, mapping: map<Id, Id>, supply: nat -> Id,
                              n: nat): Option<Drawn<seq<Value>>>
  {
    if branches == [] then Some(Drawn([], n))
    else
      var k := |branches| - 1;
      match RegenerateBranches(branches[..k], mapping, supply, n)
      case None => None
      case Some(before) =>
        match RegenerateBranch(branches[k], mapping, supply, before.next)
        case None => None
        case Some(d) => Some(Drawn(before.value + [d.value], d.next))
  }

  function RegenerateWorkflow(d: WorkflowDict, supply: nat -> Id): Option<WorkflowDict>
  {
    match RenameActions(d.actions, supply, 1)
    case None => None
    case Some(renamed) =>
      match RegenerateActions(renamed.actions, renamed.mapping, supply, 1 + |d.actions|)
      case None => None
      case Some(actions) =>
        match RegenerateBranches(d.branches, renamed.mapping, supply, actions.next)
        case None => None
        case Some(branches) =>
          if d.start !in renamed.mapping then None
          else Some(WorkflowDict(supply(0), renamed.mapping[d.start], actions.value, branches.value, d.environment))
  }

  // ---------------------------------------------------------------- the loops of regenerate_workflow_ids

  method RenameLoop(actions: seq<Value>, supply: nat -> Id, n: nat) returns (r: Option<Renamed>)
    ensures r == RenameActions(actions, supply, n)
  {
    var renamed: seq<Value> := [];
    var mapping: map<Id, Id> := map[];
    for i := 0 to |actions|
      invariant RenameActions(actions[..i], supply, n) == Some(Renamed(renamed, mapping))
    {
      assert actions[..i+1][..i] == actions[..i];
      var prior := IdField(actions[i], "id");
      if prior.None? {
        RenameFails(actions, supply, n, i + 1);
        return None;
      }
      var newId := supply(n + i);
      renamed := renamed + [Dict(SetField(actions[i].entries, "id", Str(newId)))];
      mapping := mapping[prior.value := newId];
    }
    assert actions[..|actions|] == actions;
    r := Some(Renamed(renamed, mapping));
  }

  lemma {:induction false} RenameFails(actions: seq<Value>, supply: nat -> Id, n: nat, k: nat)
    requires k <= |actions| && RenameActions(actions[..k], supply, n).None?
    ensures RenameActions(actions, supply, n).None?
    decreases |actions|
  {
    if k < |actions| {
      assert actions[..|actions|-1][..k] == actions[..k];
      RenameFails(actions[..|actions|-1], supply, n, k);
    } else {
      assert actions[..k] == actions;
    }
  }

  method ActionLoop(actions: seq<Value>, mapping: map<Id, Id>, supply: nat -> Id, n: nat)
    returns (r: Option<Drawn<seq<Value>>>)
    ensures r == RegenerateActions(actions, mapping, supply, n)
  {
    var done: seq<Value> := [];
    var next := n;
    for i := 0 to |actions|
      invariant RegenerateActions(actions[..i], mapping, supply, n) == Some(Drawn(done, next))
    {
      assert actions[..i+1][..i] == actions[..i];
      var d := if actions[i].Dict? then RegenerateObject(actions[i], mapping, supply, false, false, next) else None;
      if d.None? {
        ActionsFail(actions, mapping, supply, n, i + 1);
        return None;
      }
      done, next := done + [d.value.value], d.value.next;
    }
    assert actions[..|actions|] == actions;
    r := Some(Drawn(done, next));
  }

  lemma {:induction false} ActionsFail(actions: seq<Value>, mapping: map<Id, Id>, supply: nat -> Id, n: nat, k: nat)
    requires k <= |actions| && RegenerateActions(actions[..k], mapping, supply, n).None?
    ensures RegenerateActions(actions, mapping, supply, n).None?
    decreases |actions|
  {
    if k < |actions| {
      assert actions[..|actions|-1][..k] == actions[..k];
      ActionsFail(actions[..|actions|-1], mapping, supply, n, k);
    } else {
      assert actions[..k] == actions;
    }
  }

  method BranchLoop(branches: seq<Value>, mapping: map<Id, Id>, supply: nat -> Id, n: nat)
    returns (r: Option<Drawn<seq<Value>>>)
    ensures r == RegenerateBranches(branches, mapping, supply, n)
  {
    var done: seq<Value> := [];
    var next := n;
    for i := 0 to |branches|
      invariant RegenerateBranches(branches[..i], mapping, supply, n) == Some(Drawn(done, next))
    {
      assert branches[..i+1][..i] == branches[..i];
      var d := RegenerateBranch(branches[i], mapping, supply, next);
      if d.None? {
        BranchesFail(branches, mapping, supply, n, i + 1);
        return None;
      }
      done, next := done + [d.value.value], d.value.next;
    }
    assert branches[..|branches|] == branches;
    r := Some(Drawn(done, next));
  }

  lemma {:induction false} BranchesFail(branches: seq<Value>, mapping: map<Id, Id>, supply: nat -> Id, n: nat, k: nat)
    requires k <= |branches| && RegenerateBranches(branches[..k], mapping, supply, n).None?
    ensures RegenerateBranches(branches, mapping, supply, n).None?
    decreases |branches|
  {
    if k < |branches| {
      assert branches[..|branches|-1][..k] == branches[..k];
      BranchesFail(branches[..|branches|-1], mapping, supply, n, k);
    } else {
      assert branches[..k] == branches;
    }
  }

  method RegenerateWorkflowIds(d: WorkflowDict, supply: nat -> Id) returns (r: Option<WorkflowDict>)
    ensures r == RegenerateWorkflow(d, supply)
  {
    var renamed := RenameLoop(d.actions, supply, 1);
    if renamed.None? {
      return None;
    }
    var mapping := renamed.value.mapping;
    var actions := ActionLoop(renamed.value.actions, mapping, supply, 1 + |d.actions|);
    if actions.None? {
      return None;
    }
    var branches := BranchLoop(d.branches, mapping, supply, actions.value.next);
    if branches.None? || d.start !in mapping {
      return None;
    }
    r := Some(WorkflowDict(supply(0), mapping[d.start], actions.value.value, branches.value.value, d.environment));
  }

  // ---------------------------------------------------------------- dumps and typed copies of workflows

  function ActionJsons(actions: seq<Action>): (r: seq<Value>)
    ensures |r| == |actions| && forall i | 0 <= i < |r| :: r[i] == ActionJson(actions[i])
  {
    if actions == [] then [] else ActionJsons(actions[..|actions|-1]) + [ActionJson(actions[|actions|-1])]
  }

  function EdgeJsons(edges: seq<Edge>): (r: seq<Value>)
    ensures |r| == |edges| && forall i | 0 <= i < |r| :: r[i] == EdgeJson(edges[i])
  {
    if edges == [] then [] else EdgeJsons(edges[..|edges|-1]) + [EdgeJson(edges[|edges|-1])]
  }

  function Dump(f: Workflow): WorkflowDict
  {
    WorkflowDict(f.id, f.start, ActionJsons(f.actions), EdgeJsons(f.branches), f.environment)
  }

  function NewIds(actions: seq<Action>, supply: nat -> Id, n: nat): (m: map<Id, Id>)
    ensures m.Keys == set a | a in actions :: a.id
  {
    if actions == [] then map[]
    else
      var k := |actions| - 1;
      assert actions == actions[..k] + [actions[k]];
      NewIds(actions[..k], supply, n)[actions[k].id := supply(n + k)]
  }

  function WithNewIds(actions: seq<Action>, supply: nat -> Id, n: nat): (r: seq<Action>)
    ensures |r| == |actions| && forall i | 0 <= i < |r| :: r[i] == actions[i].(id := supply(n + i))
  {
    if actions == [] then []
    else WithNewIds(actions[..|actions|-1], supply, n) + [actions[|actions|-1].(id := supply(n + |actions| - 1))]
  }

  function CopyActions(actions: seq<Action>, mapping: map<Id, Id>, supply: nat -> Id, n: nat): (d: Drawn<seq<Action>>)
    ensures |d.value| == |actions|
  {
    if actions == [] then Drawn([], n)
    else
      var before := CopyActions(actions[..|actions|-1], mapping, supply, n);
      var last := CopyAction(actions[|actions|-1], mapping, supply, before.next);
      Drawn(before.value + [last.value], last.next)
  }

  function MapEnds(b: Edge, mapping: map<Id, Id>): Edge
  {
    b.(source := if b.source in mapping then mapping[b.source] else b.source,
       destination := if b.destination in mapping then mapping[b.destination] else b.destination)
  }

  function CopyEdges(edges: seq<Edge>, mapping: map<Id, Id>, supply: nat -> Id, n: nat): (d: Drawn<seq<Edge>>)
    ensures |d.value| == |edges|
  {
    if edges == [] then Drawn([], n)
    else
      var before := CopyEdges(edges[..|edges|-1], mapping, supply, n);
      var last := CopyEdge(MapEnds(edges[|edges|-1], mapping), mapping, supply, before.next);
      Drawn(before.value + [last.value], last.next)
  }

  function CopyWorkflow(f: Workflow, supply: nat -> Id): Workflow
  {
    var mapping := NewIds(f.actions, supply, 1);
    var actions := CopyActions(WithNewIds(f.actions, supply, 1), mapping, supply, 1 + |f.actions|);
    var edges := CopyEdges(f.branches, mapping, supply, actions.next);
    Workflow(supply(0), if f.start in mapping then mapping[f.start] else f.start, actions.value, edges.value,
             f.environment)
  }

  // ---------------------------------------------------------------- regeneration computes the typed copy

  lemma SetIdField(id: Id, newId: Id, scalars: seq<Entry>, nested: seq<Entry>)
    ensures SetField(Fields(id, scalars, nested), "id", Str(newId)) == Fields(newId, scalars, nested)
    ensures Lookup(Fields(id, scalars, nested), "id") == Some(Str(id))
  {
    assert Fields(id, scalars, nested)[0].key == "id";
    assert Fields(id, scalars, nested)[1..] == scalars + nested;
  }

  lemma RenameSnoc(front: seq<Value>, last: Value, supply: nat -> Id, n: nat)
    ensures RenameActions(front + [last], supply, n) ==
            match RenameActions(front, supply, n)
            case None => None
            case Some(before) =>
              match IdField(last, "id")
              case None => None
              case Some(prior) =>
                var newId := supply(n + |front|);
                Some(Renamed(before.actions + [Dict(SetField(last.entries, "id", Str(newId)))],
                             before.mapping[prior := newId]))
  {
    hide SetField, Lookup;
    assert (front + [last])[..|front|] == front;
  }

  lemma ActionsSnoc(front: seq<Action>, last: Action, supply: nat -> Id, n: nat)
    ensures ActionJsons(front + [last]) == ActionJsons(front) + [ActionJson(last)]
    ensures WithNewIds(front + [last], supply, n) == WithNewIds(front, supply, n) + [last.(id := supply(n + |front|))]
    ensures NewIds(front + [last], supply, n) == NewIds(front, supply, n)[last.id := supply(n + |front|)]
  {
    hide ActionJson;
    assert (front + [last])[..|front|] == front;
  }

  lemma {:induction false} RenameDumps(actions: seq<Action>, supply: nat -> Id, n: nat)
    ensures RenameActions(ActionJsons(actions), supply, n) ==
            Some(Renamed(ActionJsons(WithNewIds(actions, supply, n)), NewIds(actions, supply, n)))
    decreases |actions|
  {
    if actions == [] {
      assert ActionJsons(actions) == [] && WithNewIds(actions, supply, n) == [];
    } else {
      hide *;
      var k := |actions| - 1;
      var a, front := actions[k], actions[..k];
      assert actions == front + [a];
      RenameDumps(front, supply, n);
      ActionsSnoc(front, a, supply, n);
      RenameSnoc(ActionJsons(front), ActionJson(a), supply, n);
      SetIdOfAction(a, supply(n + k));
      ActionsSnoc(WithNewIds(front, supply, n), a.(id := supply(n + k)), supply, n);
    }
  }

  lemma SetIdOfAction(a: Action, newId: Id)
    ensures ActionJson(a).Dict? && IdField(ActionJson(a), "id") == Some(a.id)
    ensures Dict(SetField(ActionJson(a).entries, "id", Str(newId))) == ActionJson(a.(id := newId))
  {
    hide Lookup, SetField, ArgJson, ArgJsons, OptionJson;
    var nested := [Entry("device_id", match a.device case None => Null case Some(d) => ArgJson(d))] +
                ([Entry("arguments", List(ArgJsons(a.arguments)))] + [Entry("trigger", OptionJson(a.trigger))]);
    SetIdField(a.id, newId, Names(a.app, a.name), nested);
  }

  ghost predicate PlainWorkflow(f: Workflow)
  {
    (forall a :: a in f.actions ==> PlainAction(a)) && (forall b :: b in f.branches ==> PlainOption(b.condition))
  }

  function ActionsReferences(actions: seq<Action>): set<Id>
  {
    set a, r | a in actions && r in ActionReferences(a) :: r
  }

  lemma ActionsReferencesKnown(actions: seq<Action>, known: set<Id>)
    ensures if actions == [] then ActionsReferences(actions) == {}
            else ActionsReferences(actions) <= known <==>
                   ActionsReferences(actions[..|actions|-1]) <= known && ActionReferences(actions[|actions|-1]) <= known
  {
    hide ActionReferences;
    if actions != [] {
      var k := |actions| - 1;
      assert actions == actions[..k] + [actions[k]];
      assert forall r :: r in ActionReferences(actions[k]) ==> r in ActionsReferences(actions);
    }
  }

  lemma {:induction false} ActionsCopied(actions: seq<Action>, mapping: map<Id, Id>, supply: nat -> Id, n: nat)
    requires forall a :: a in actions ==> PlainAction(a)
    ensures var d := CopyActions(actions, mapping, supply, n);
            RegenerateActions(ActionJsons(actions), mapping, supply, n) ==
            When(ActionsReferences(actions) <= mapping.Keys, Drawn(ActionJsons(d.value), d.next))
    decreases |actions|
  {
    hide RegenerateObject, PlainAction, ActionReferences, ActionsReferences, CopyAction, ActionJson;
    ActionsReferencesKnown(actions, mapping.Keys);
    if actions != [] {
      var k := |actions| - 1;
      var front := actions[..k];
      ActionsCopied(front, mapping, supply, n);
      var before := CopyActions(front, mapping, supply, n);
      ActionCopied(actions[k], mapping, supply, before.next);
      IsObject(actions[k]);
      assert ActionJsons(actions)[..k] == ActionJsons(front);
      var last := CopyAction(actions[k], mapping, supply, before.next);
      assert (before.value + [last.value])[..k] == before.value;
    }
  }

  lemma IsObject(a: Action)
    ensures ActionJson(a).Dict?
  {
  }

  lemma SetSecond(x: Entry, y: Entry, rest: seq<Entry>, v: Value)
    requires x.key != y.key
    ensures SetField([x] + ([y] + rest), y.key, v) == [x] + ([Entry(y.key, v)] + rest)
    ensures Lookup([x] + ([y] + rest), y.key) == Some(y.value)
  {
    assert ([x] + ([y] + rest))[1..] == [y] + rest && ([y] + rest)[1..] == rest;
  }

  lemma SetLater(x: Entry, rest: seq<Entry>, key: string, v: Value)
    requires x.key != key
    ensures SetField([x] + rest, key, v) == [x] + SetField(rest, key, v)
    ensures Lookup([x] + rest, key) == Lookup(rest, key)
  {
    assert ([x] + rest)[1..] == rest;
  }

  lemma BranchEndsSet(b: Edge, source: Id, destination: Id)
    ensures EdgeJson(b).Dict?
    ensures IdField(EdgeJson(b), "source_id") == Some(b.source)
    ensures IdField(EdgeJson(b), "destination_id") == Some(b.destination)
    ensures SetField(SetField(EdgeJson(b).entries, "source_id", Str(source)), "destination_id", Str(destination)) ==
            EdgeJson(b.(source := source, destination := destination)).entries
  {
    hide OptionJson, SetField, Lookup;
    var own, from, to := Entry("id", Str(b.id)), Entry("source_id", Str(b.source)),
        Entry("destination_id", Str(b.destination));
    var from', to' := Entry("source_id", Str(source)), Entry("destination_id", Str(destination));
    var rest := [Entry("status", Str(b.status)), Entry("priority", Num(b.priority as real)),
                 Entry("condition", OptionJson(b.condition))];
    assert EdgeJson(b).entries == [own] + ([from] + ([to] + rest));
    assert EdgeJson(b.(source := source, destination := destination)).entries == [own] + ([from'] + ([to'] + rest));
    SetSecond(own, from, [to] + rest, from'.value);
    SetLater(own, [from] + ([to] + rest), "destination_id", to'.value);
    SetLater(own, [from'] + ([to] + rest), "destination_id", to'.value);
    SetSecond(from, to, rest, to'.value);
    SetSecond(from', to, rest, to'.value);
  }

  function EdgeNeeds(b: Edge): set<Id>
  {
    {b.source, b.destination} + OptionReferences(b.condition)
  }

  function EdgesNeeds(edges: seq<Edge>): set<Id>
  {
    set b, r | b in edges && r in EdgeNeeds(b) :: r
  }

  lemma EdgesNeedsKnown(edges: seq<Edge>, known: set<Id>)
    ensures if edges == [] then EdgesNeeds(edges) == {}
            else EdgesNeeds(edges) <= known <==>
                   EdgesNeeds(edges[..|edges|-1]) <= known && EdgeNeeds(edges[|edges|-1]) <= known
  {
    hide EdgeNeeds;
    if edges != [] {
      var k := |edges| - 1;
      assert edges == edges[..k] + [edges[k]];
      assert forall r :: r in EdgeNeeds(edges[k]) ==> r in EdgesNeeds(edges);
    }
  }

  lemma BranchCopied(b: Edge, mapping: map<Id, Id>, supply: nat -> Id, n: nat)
    requires PlainOption(b.condition)
    ensures var d := CopyEdge(MapEnds(b, mapping), mapping, supply, n);
            RegenerateBranch(EdgeJson(b), mapping, supply, n) ==
            When(EdgeNeeds(b) <= mapping.Keys, Drawn(EdgeJson(d.value), d.next))
  {
    hide RegenerateObject, EdgeJson, SetField, IdField, PlainOption, OptionReferences, CopyEdge;
    var e := MapEnds(b, mapping);
    BranchEndsSet(b, e.source, e.destination);
    EdgeIsObject(e);
    EdgeCopied(e, mapping, supply, n);
  }

  lemma EdgeIsObject(b: Edge)
    ensures EdgeJson(b).Dict?
  {
  }

  lemma {:induction false} BranchesCopied(edges: seq<Edge>, mapping: map<Id, Id>, supply: nat -> Id, n: nat)
    requires forall b :: b in edges ==> PlainOption(b.condition)
    ensures var d := CopyEdges(edges, mapping, supply, n);
            RegenerateBranches(EdgeJsons(edges), mapping, supply, n) ==
            When(EdgesNeeds(edges) <= mapping.Keys, Drawn(EdgeJsons(d.value), d.next))
    decreases |edges|
  {
    hide RegenerateBranch, PlainOption, EdgeNeeds, EdgesNeeds, CopyEdge, EdgeJson, MapEnds;
    EdgesNeedsKnown(edges, mapping.Keys);
    if edges != [] {
      var k := |edges| - 1;
      var front := edges[..k];
      BranchesCopied(front, mapping, supply, n);
      var before := CopyEdges(front, mapping, supply, n);
      BranchCopied(edges[k], mapping, supply, before.next);
      assert EdgeJsons(edges)[..k] == EdgeJsons(front);
      var last := CopyEdge(MapEnds(edges[k], mapping), mapping, supply, before.next);
      assert (before.value + [last.value])[..k] == before.value;
    }
  }

  /** Every reference, branch end and start names an action of the workflow. */
  ghost predicate Closed(f: Workflow)
  {
    WorkflowReferences(f) <= ActionIds(f) && BranchEnds(f) <= ActionIds(f) && f.start in ActionIds(f)
  }

  lemma NewIdsKeepReferences(actions: seq<Action>, supply: nat -> Id, n: nat)
    ensures ActionsReferences(WithNewIds(actions, supply, n)) == ActionsReferences(actions)
  {
    var renamed := WithNewIds(actions, supply, n);
    hide WithNewIds, ArgReferences, OptionReferences;
    forall i | 0 <= i < |actions| ensures ActionReferences(renamed[i]) == ActionReferences(actions[i]) {
    }
    hide ActionReferences;
    forall r | r in ActionsReferences(renamed) ensures r in ActionsReferences(actions) {
      var i :| 0 <= i < |renamed| && r in ActionReferences(renamed[i]);
      assert actions[i] in actions;
    }
    forall r | r in ActionsReferences(actions) ensures r in ActionsReferences(renamed) {
      var i :| 0 <= i < |actions| && r in ActionReferences(actions[i]);
      assert renamed[i] in renamed;
    }
  }

  function GuardReferences(edges: seq<Edge>): set<Id>
  {
    set b, r | b in edges && r in OptionReferences(b.condition) :: r
  }

  lemma EdgesNeedEnds(f: Workflow)
    ensures EdgesNeeds(f.branches) == BranchEnds(f) + GuardReferences(f.branches)
  {
    var guards := GuardReferences(f.branches);
    forall r | r in EdgesNeeds(f.branches) ensures r in BranchEnds(f) + guards {
      hide OptionReferences;
      var b :| b in f.branches && r in EdgeNeeds(b);
    }
    forall r | r in BranchEnds(f) ensures r in EdgesNeeds(f.branches) {
      hide OptionReferences;
      var b :| b in f.branches && (r == b.source || r == b.destination);
      assert r in EdgeNeeds(b);
    }
    forall r | r in guards ensures r in EdgesNeeds(f.branches) {
      hide OptionReferences;
      var b :| b in f.branches && r in OptionReferences(b.condition);
      assert r in EdgeNeeds(b);
    }
  }

  lemma ClosedMeans(f: Workflow, supply: nat -> Id)
    ensures Closed(f) <==> ActionsReferences(WithNewIds(f.actions, supply, 1)) <= ActionIds(f)
                           && EdgesNeeds(f.branches) <= ActionIds(f) && f.start in ActionIds(f)
  {
    hide ActionReferences, EdgesNeeds, WithNewIds, OptionReferences;
    NewIdsKeepReferences(f.actions, supply, 1);
    EdgesNeedEnds(f);
    assert WorkflowReferences(f) == ActionsReferences(f.actions) + GuardReferences(f.branches);
  }

  lemma NewIdsKeepPlain(actions: seq<Action>, supply: nat -> Id, n: nat)
    requires forall a :: a in actions ==> PlainAction(a)
    ensures forall a :: a in WithNewIds(actions, supply, n) ==> PlainAction(a)
  {
    var renamed := WithNewIds(actions, supply, n);
    forall a | a in renamed ensures PlainAction(a) {
      hide WithNewIds, PlainOption, PlainArgs;
      var i :| 0 <= i < |renamed| && a == renamed[i];
      assert PlainAction(actions[i]);
    }
  }

  /** Regenerating the ids of a dumped workflow gives the dump of its typed copy, and fails exactly when some
      reference, branch end or the start names no action: a reference to a branch counter or an environment
      variable makes a workflow impossible to copy. */
  lemma CopyIsExact(f: Workflow, supply: nat -> Id)
    requires PlainWorkflow(f)
    ensures RegenerateWorkflow(Dump(f), supply) == if Closed(f) then Some(Dump(CopyWorkflow(f, supply))) else None
  {
    hide RegenerateActions, RegenerateBranches, RenameActions, ActionsReferences, EdgesNeeds, Closed, CopyActions,
      CopyEdges,
      ActionJsons, EdgeJsons, WithNewIds, NewIds, PlainAction, PlainOption;
    var mapping := NewIds(f.actions, supply, 1);
    var renamed := WithNewIds(f.actions, supply, 1);
    assert mapping.Keys == ActionIds(f);
    RenameDumps(f.actions, supply, 1);
    NewIdsKeepPlain(f.actions, supply, 1);
    ActionsCopied(renamed, mapping, supply, 1 + |f.actions|);
    BranchesCopied(f.branches, mapping, supply, CopyActions(renamed, mapping, supply, 1 + |f.actions|).next);
    ClosedMeans(f, supply);
  }
}
