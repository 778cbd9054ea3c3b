/** Evaluation stops at the part that decides: what comes after it is neither visited nor of any consequence. */
module ShortCircuits {
  import opened Elements
  import opened Conditions

  /** What the parts of an expression come to, each on its own: first its conditions, then its child expressions. */
  ghost function Parts(e: Expression, leaf: Condition -> Leaf): (vs: seq<Verdict>)
    ensures |vs| == |e.conditions| + |e.children|
    ensures forall i | 0 <= i < |e.conditions| ::
              var l := leaf(e.conditions[i]);
              vs[i] == Verdict(l.holds && !l.raised, [e.conditions[i]], l.signals, l.raised)
    ensures forall i | 0 <= i < |e.children| :: vs[|e.conditions| + i] == Eval(e.children[i], leaf)
  {
    seq(|e.conditions|, i requires 0 <= i < |e.conditions| =>
          var l := leaf(e.conditions[i]); Verdict(l.holds && !l.raised, [e.conditions[i]], l.signals, l.raised))
    + seq(|e.children|, i requires 0 <= i < |e.children| => Eval(e.children[i], leaf))
  }

  /** One of the first k parts holds. */
  ghost predicate AnyHolds(vs: seq<Verdict>, k: nat)
    requires k <= |vs|
  {
    exists j :: 0 <= j < k && vs[j].holds
  }

  /** Whether part k settles the outcome: it raises, it is a false part of an `and`, a true part of an `or`, or the
      second true part of an `xor`. */
  ghost predicate Settles(o: Operator, vs: seq<Verdict>, k: nat)
    requires k < |vs|
  {
    vs[k].raised
    || match o
       case And => !vs[k].holds
       case Or => vs[k].holds
       case Xor => vs[k].holds && AnyHolds(vs, k)
  }

  ghost predicate NoneSettles(o: Operator, vs: seq<Verdict>, k: nat)
    requires k <= |vs|
  {
    forall j | 0 <= j < k :: !Settles(o, vs, j)
  }

  function Visits(vs: seq<Verdict>): seq<Condition>
  {
    if vs == [] then [] else vs[0].visited + Visits(vs[1..])
  }

  function SignalsOf(vs: seq<Verdict>): seq<Signal>
  {
    if vs == [] then [] else vs[0].signals + SignalsOf(vs[1..])
  }

  /** The verdict of an expression over what its parts come to: those up to the settling one are visited, and no
      other. */
  ghost predicate Settled(e: Expression, vs: seq<Verdict>, v: Verdict, k: nat)
    requires k < |vs|
  {
    && v.raised == vs[k].raised
    && v.visited == Visits(vs[..k+1])
    && (v.raised ==> !v.holds && v.signals == SignalsOf(vs[..k+1]))
    && (!v.raised ==> v.holds == (e.operator.Or? != e.negated) && v.signals == SignalsOf(vs[..k+1]) + [Own(e, v.holds)])
  }

  function Own(e: Expression, holds: bool): Signal
  {
    if holds then ExpressionTrue(e.id) else ExpressionFalse(e.id)
  }

  ghost predicate Unsettled(e: Expression, vs: seq<Verdict>, v: Verdict)
  {
    && !v.raised && v.visited == Visits(vs) && v.signals == SignalsOf(vs) + [Own(e, v.holds)]
    && v.holds == ((match e.operator
                    case And => true
                    case Or => vs == []
                    case Xor => vs == [] || AnyHolds(vs, |vs|)) != e.negated)
  }

  lemma PartIs(e: Expression, leaf: Condition -> Leaf, i: nat)
    requires i < Size(e)
    ensures EvalPart(e, i, leaf) == Parts(e, leaf)[i]
  {
  }

  lemma ScanAt(e: Expression, i: nat, leaf: Condition -> Leaf, vs: seq<Verdict>)
    requires vs == Parts(e, leaf) && i < |vs|
    ensures var v, part := Scan(e, i, AnyHolds(vs, i), leaf), vs[i];
            if Settles(e.operator, vs, i) then
              v.visited == part.visited && v.signals == part.signals && v.raised == part.raised
              && (!v.raised ==> v.holds == e.operator.Or?)
            else
              var rest := Scan(e, i + 1, AnyHolds(vs, i + 1), leaf);
              v == Verdict(rest.holds, part.visited + rest.visited, part.signals + rest.signals, rest.raised)
  {
    PartIs(e, leaf, i);
    assert AnyHolds(vs, i + 1) == (AnyHolds(vs, i) || vs[i].holds);
    hide Parts, AnyHolds, EvalPart;
  }

  lemma TakesOne(vs: seq<Verdict>, i: nat, n: nat)
    requires i < n <= |vs|
    ensures Visits(vs[i..n]) == vs[i].visited + Visits(vs[i+1..n])
    ensures SignalsOf(vs[i..n]) == vs[i].signals + SignalsOf(vs[i+1..n])
  {
    assert vs[i..n][0] == vs[i] && vs[i..n][1..] == vs[i+1..n];
  }

  lemma {:induction false} ScanStops(e: Expression, i: nat, leaf: Condition -> Leaf, vs: seq<Verdict>, k: nat)
    requires vs == Parts(e, leaf) && i <= k < |vs| && NoneSettles(e.operator, vs, k) && Settles(e.operator, vs, k)
    ensures var v := Scan(e, i, AnyHolds(vs, i), leaf);
            && v.visited == Visits(vs[i..k+1]) && v.signals == SignalsOf(vs[i..k+1]) && v.raised == vs[k].raised
            && (!v.raised ==> v.holds == e.operator.Or?)
    decreases k - i
  {
    hide Scan, Parts, AnyHolds, Settles;
    ScanAt(e, i, leaf, vs);
    TakesOne(vs, i, k + 1);
    if i == k {
      assert vs[i+1..k+1] == [];
    } else {
      assert !Settles(e.operator, vs, i);
      ScanStops(e, i + 1, leaf, vs, k);
    }
  }

  lemma {:induction false} ScanFinishes(e: Expression, i: nat, leaf: Condition -> Leaf, vs: seq<Verdict>)
    requires vs == Parts(e, leaf) && i <= |vs| && NoneSettles(e.operator, vs, |vs|)
    ensures var v := Scan(e, i, AnyHolds(vs, i), leaf);
            && v.visited == Visits(vs[i..|vs|]) && v.signals == SignalsOf(vs[i..|vs|]) && !v.raised
            && v.holds == match e.operator case And => true case Or => false case Xor => AnyHolds(vs, |vs|)
    decreases |vs| - i
  {
    if i < |vs| {
      hide Scan, Parts, AnyHolds, Settles;
      ScanAt(e, i, leaf, vs);
      TakesOne(vs, i, |vs|);
      assert !Settles(e.operator, vs, i);
      ScanFinishes(e, i + 1, leaf, vs);
    } else {
      assert vs[i..|vs|] == [];
    }
  }

  /** For every tree and every valuation: evaluation visits the parts up to the first that settles the outcome,
      conditions before child expressions, and has that part's outcome; if none does it visits them all. */
  lemma StopsWhereSettled(e: Expression, leaf: Condition -> Leaf)
    ensures var vs, v := Parts(e, leaf), Eval(e, leaf);
            && (forall k: nat | k < |vs| && NoneSettles(e.operator, vs, k) && Settles(e.operator, vs, k) ::
                  Settled(e, vs, v, k))
            && (NoneSettles(e.operator, vs, |vs|) ==> Unsettled(e, vs, v))
  {
    var vs := Parts(e, leaf);
    hide Scan, Settles, Visits, SignalsOf, Parts;
    assert !AnyHolds(vs, 0);
    forall k: nat | k < |vs| && NoneSettles(e.operator, vs, k) && Settles(e.operator, vs, k)
      ensures Settled(e, vs, Eval(e, leaf), k)
    {
      ScanStops(e, 0, leaf, vs, k);
      assert vs[0..k+1] == vs[..k+1];
    }
    if NoneSettles(e.operator, vs, |vs|) {
      ScanFinishes(e, 0, leaf, vs);
      assert vs[0..|vs|] == vs;
      if vs == [] {
        NoParts(e, leaf);
      }
    }
  }

  lemma NoParts(e: Expression, leaf: Condition -> Leaf)
    ensures Visits([]) == [] && SignalsOf([]) == []
  {
  }

  /** The parts after the settling one cannot matter: any other parts in their place, under any other valuation of
      them, give the same verdict, visits and signals. */
  lemma RestCannotMatter(e: Expression, f: Expression, a: Condition -> Leaf, b: Condition -> Leaf, k: nat)
    requires e.operator == f.operator && e.negated == f.negated && e.id == f.id
    requires k < |Parts(e, a)| && k < |Parts(f, b)| && Parts(e, a)[..k+1] == Parts(f, b)[..k+1]
    requires NoneSettles(e.operator, Parts(e, a), k) && Settles(e.operator, Parts(e, a), k)
    ensures Eval(e, a) == Eval(f, b)
  {
    var vs, ws := Parts(e, a), Parts(f, b);
    hide Parts, Eval;
    forall j: nat | j <= k ensures Settles(e.operator, vs, j) == Settles(f.operator, ws, j) {
      assert forall i | 0 <= i <= j :: vs[i] == vs[..k+1][i] && ws[i] == ws[..k+1][i];
      assert AnyHolds(vs, j) == AnyHolds(ws, j);
    }
    assert vs[k] == vs[..k+1][k] && ws[k] == ws[..k+1][k];
    StopsWhereSettled(e, a);
    StopsWhereSettled(f, b);
    assert Settled(e, vs, Eval(e, a), k) && Settled(f, ws, Eval(f, b), k);
  }
}
