/** The accumulator entries that the parts of a workflow can read. */
module References {
  import opened Json
  import opened Elements
  import opened Simulation

  function ArgReferences(args: seq<Argument>): set<Id>
  {
    set a | a in args && a.reference.Some? :: a.reference.value
  }

  function ConditionReferences(c: Condition): set<Id>
  {
    ArgReferences(c.arguments) + set t, r | t in c.transforms && r in ArgReferences(t.arguments) :: r
  }

  function ExpressionReferences(e: Expression): set<Id>
  {
    (set c, r | c in e.conditions && r in ConditionReferences(c) :: r)
    + (set x, r | x in e.children && r in ExpressionReferences(x) :: r)
  }

  function OptionReferences(e: Option<Expression>): set<Id>
  {
    match e case None => {} case Some(x) => ExpressionReferences(x)
  }

  function ActionReferences(a: Action): set<Id>
  {
    ArgReferences(a.arguments) + OptionReferences(a.trigger)
    + match a.device case None => {} case Some(d) => ArgReferences([d])
  }

  function WorkflowReferences(f: Workflow): set<Id>
  {
    (set a, r | a in f.actions && r in ActionReferences(a) :: r)
    + (set b, r | b in f.branches && r in OptionReferences(b.condition) :: r)
  }

  function BranchIds(f: Workflow): set<Id>
  {
    set b | b in f.branches :: b.id
  }

  function ActionIds(f: Workflow): set<Id>
  {
    set a | a in f.actions :: a.id
  }

  function BranchEnds(f: Workflow): set<Id>
  {
    (set b | b in f.branches :: b.source) + (set b | b in f.branches :: b.destination)
  }

  // ---------------------------------------------------------------- what an identity renaming relates

  ghost function Except(hidden: set<Id>): Renaming
  {
    imap k: Id | k !in hidden :: k
  }

  lemma ArgsUnchanged(m: Renaming, hidden: set<Id>, args: seq<Argument>)
    requires m == Except(hidden) && ArgReferences(args) !! hidden
    ensures ArgsSim(m, args, args)
  {
    forall i | 0 <= i < |args| ensures ArgSim(m, args[i], args[i]) {
      if args[i].reference.Some? {
        assert args[i].reference.value in ArgReferences(args);
      }
    }
  }

  lemma ConditionUnchanged(m: Renaming, hidden: set<Id>, c: Condition)
    requires m == Except(hidden) && ConditionReferences(c) !! hidden
    ensures ConditionSim(m, c, c)
  {
    ArgsUnchanged(m, hidden, c.arguments);
    forall i | 0 <= i < |c.transforms| ensures ArgsSim(m, c.transforms[i].arguments, c.transforms[i].arguments) {
      var t := c.transforms[i];
      assert forall r :: r in ArgReferences(t.arguments) ==> r in ConditionReferences(c);
      ArgsUnchanged(m, hidden, t.arguments);
    }
  }

  lemma {:induction false} ExpressionUnchanged(m: Renaming, hidden: set<Id>, e: Expression)
    requires m == Except(hidden) && ExpressionReferences(e) !! hidden
    ensures ExpressionSim(m, e, e)
    decreases e
  {
    forall i | 0 <= i < |e.conditions| ensures ConditionSim(m, e.conditions[i], e.conditions[i]) {
      var c := e.conditions[i];
      assert forall r :: r in ConditionReferences(c) ==> r in ExpressionReferences(e);
      ConditionUnchanged(m, hidden, c);
    }
    forall i | 0 <= i < |e.children| ensures ExpressionSim(m, e.children[i], e.children[i]) {
      var x := e.children[i];
      assert forall r :: r in ExpressionReferences(x) ==> r in ExpressionReferences(e);
      ExpressionUnchanged(m, hidden, x);
    }
  }

  lemma ActionUnchanged(m: Renaming, hidden: set<Id>, a: Action)
    requires m == Except(hidden) && a.id !in hidden && ActionReferences(a) !! hidden
    ensures ActionSim(m, a, a)
  {
    ArgsUnchanged(m, hidden, a.arguments);
    if a.device.Some? {
      ArgsUnchanged(m, hidden, [a.device.value]);
      assert ArgSim(m, [a.device.value][0], [a.device.value][0]);
    }
    if a.trigger.Some? {
      ExpressionUnchanged(m, hidden, a.trigger.value);
    }
  }

  /** A workflow that neither references nor reuses the hidden ids is related to itself without them. */
  lemma WorkflowUnchanged(m: Renaming, f: Workflow)
    requires m == Except(BranchIds(f))
    requires WorkflowReferences(f) !! BranchIds(f) && ActionIds(f) !! BranchIds(f) && BranchEnds(f) !! BranchIds(f)
    ensures WorkflowSim(m, f, f) && Injective(m)
  {
    var hidden := BranchIds(f);
    forall i | 0 <= i < |f.actions| ensures ActionSim(m, f.actions[i], f.actions[i]) {
      var a := f.actions[i];
      assert a.id in ActionIds(f);
      assert forall r :: r in ActionReferences(a) ==> r in WorkflowReferences(f);
      ActionUnchanged(m, hidden, a);
    }
    forall i | 0 <= i < |f.branches| ensures EdgeSim(m, f.branches[i], f.branches[i]) {
      var b := f.branches[i];
      assert b.source in BranchEnds(f) && b.destination in BranchEnds(f);
      assert forall r :: r in OptionReferences(b.condition) ==> r in WorkflowReferences(f);
      if b.condition.Some? {
        ExpressionUnchanged(m, hidden, b.condition.value);
      }
    }
    forall i | 0 <= i < |f.branches| ensures f.branches[i].id in hidden {
    }
  }
}
