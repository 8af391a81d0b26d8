/**
 Rule 3 of the interface check: the three-colour depth-first search for cycles of the
 extends relation (onto_platform/registry/checks/interface_category.py).
 */
module CycleSearch {
  import opened Sequences
  import opened Ontology
  import opened WellFormedness
  import opened Findings

  /** One of the reported cycles ends with the edge from `a` to `b`. */
  ghost predicate Closes(findings: set<Finding>, a: string, b: string) {
    exists f | f in findings :: f.ExtendsCycle? && |f.cycle| >= 2 && f.cycle[|f.cycle| - 2..] == [a, b]
  }

  /** Every node of `order` comes after the interfaces it extends, edges that close a reported cycle aside. */
  ghost predicate RankedBut(g: map<string, Interface>, order: seq<string>, findings: set<Finding>) {
    forall i, b | 0 <= i < |order| && Extends(g, order[i], b) :: b in order[..i] || Closes(findings, order[i], b)
  }

  /** Every node of `order` comes after all the interfaces it extends. */
  ghost predicate Ranked(g: map<string, Interface>, order: seq<string>) {
    RankedBut(g, order, {})
  }

  /** `order` is a topological rank of the whole graph. */
  ghost predicate FinishingOrder(g: map<string, Interface>, order: seq<string>) {
    Distinct(order) && Ranked(g, order) && forall r :: r in order <==> r in g
  }

  /** The reported walk is genuine, closed, and passes through no interface twice. */
  ghost predicate IsCycleFinding(g: map<string, Interface>, f: Finding) {
    f.ExtendsCycle? && ClosedWalk(g, f.cycle) && Distinct(f.cycle[..|f.cycle| - 1])
  }

  /** A walk through no reported closing edge that starts at position i only goes to earlier positions. */
  lemma {:induction false} WalkDescends(
      g: map<string, Interface>, order: seq<string>, findings: set<Finding>, p: seq<string>, i: nat, n: nat)
    requires RankedBut(g, order, findings) && IsWalk(g, p)
    requires forall k, l | 0 <= k && l == k + 1 && l < |p| :: !Closes(findings, p[k], p[l])
    requires i < |order| && 0 < n < |p| && p[0] == order[i]
    ensures p[n] in order[..i]
  {
    if n == 1 {
      assert Extends(g, p[0], p[1]) && !Closes(findings, p[0], p[1]);
    } else {
      WalkDescends(g, order, findings, p, i, n - 1);
      var k :| 0 <= k < i && order[k] == p[n - 1];
      assert Extends(g, order[k], p[n]) && !Closes(findings, p[n - 1], p[n]);
      assert p[n] in order[..k];
    }
  }

  /** Some edge of the walk closes a reported cycle. */
  ghost predicate PassesReport(findings: set<Finding>, p: seq<string>) {
    exists k, l :: 0 <= k && l == k + 1 && l < |p| && Closes(findings, p[k], p[l])
  }

  ghost predicate CyclesReported(g: map<string, Interface>, findings: set<Finding>) {
    forall p {:trigger PassesReport(findings, p)} | ClosedWalk(g, p) :: PassesReport(findings, p)
  }

  /** No cycle goes unreported: every closed walk takes the closing edge of some reported cycle. */
  lemma EveryCycleIsReported(g: map<string, Interface>, order: seq<string>, findings: set<Finding>, p: seq<string>)
    requires RankedBut(g, order, findings) && (forall r | r in g :: r in order) && Distinct(order)
    requires ClosedWalk(g, p)
    ensures PassesReport(findings, p)
  {
    if !PassesReport(findings, p) {
      FirstStep(g, p);
      var i :| 0 <= i < |order| && order[i] == p[0];
      WalkDescends(g, order, findings, p, i, |p| - 1);
    }
  }

  /** Completeness of a silent search: a graph with a finishing order has no cycle. */
  lemma FinishingOrderIsAcyclic(g: map<string, Interface>, order: seq<string>)
    requires FinishingOrder(g, order)
    ensures Acyclic(g)
  {
    forall p ensures !ClosedWalk(g, p) {
      if ClosedWalk(g, p) {
        EveryCycleIsReported(g, order, {}, p);
      }
    }
  }

  /** A walk can be extended by one edge at its end. */
  lemma WalkPush(g: map<string, Interface>, p: seq<string>, b: string)
    requires IsWalk(g, p) && (p == [] || Extends(g, p[|p| - 1], b))
    ensures IsWalk(g, p + [b])
  {}

  /** What closes a reported cycle still does after more reports. */
  lemma MoreReports(some: set<Finding>, more: set<Finding>)
    requires some <= more
    ensures forall a, b | Closes(some, a, b) :: Closes(more, a, b)
  {}

  lemma StillReported(g: map<string, Interface>, some: set<Finding>, more: set<Finding>)
    requires some <= more && CyclesReported(g, some)
    ensures CyclesReported(g, more)
  {
    MoreReports(some, more);
    forall p | ClosedWalk(g, p) ensures PassesReport(more, p) {
      assert PassesReport(some, p);
    }
  }

  lemma RankOneMore(g: map<string, Interface>, order: seq<string>, findings: set<Finding>, r: string)
    requires RankedBut(g, order, findings)
    requires forall b | Extends(g, r, b) :: b in order || Closes(findings, r, b)
    ensures RankedBut(g, order + [r], findings)
  {
    var more := order + [r];
    forall i, b | 0 <= i < |more| && Extends(g, more[i], b) ensures b in more[..i] || Closes(findings, more[i], b) {
      if i < |order| {
        assert more[..i] == order[..i] && more[i] == order[i];
      } else {
        assert more[..i] == order;
      }
    }
  }

  /** What a finished search amounts to. */
  lemma SearchIsComplete(g: map<string, Interface>, order: seq<string>, findings: set<Finding>)
    requires Distinct(order) && RankedBut(g, order, findings) && forall r :: r in order <==> r in g
    requires forall f | f in findings :: IsCycleFinding(g, f)
    ensures findings == {} <==> Acyclic(g)
    ensures findings == {} ==> FinishingOrder(g, order)
    ensures CyclesReported(g, findings)
  {
    forall p | ClosedWalk(g, p) ensures PassesReport(findings, p) {
      EveryCycleIsReported(g, order, findings, p);
    }
    if findings != {} {
      var f :| f in findings;
      assert ClosedWalk(g, f.cycle);
    }
  }

  class ExtendsSearch {
    const interfaces: map<string, Interface>
    var color: map<string, int>  // absent = unseen, 1 = in progress, 2 = done
    var stack: seq<string>
    var findings: set<Finding>
    ghost var finished: seq<string>

    ghost predicate Colored(r: string, c: int)
      reads this
    {
      r in color && color[r] == c
    }

    /** The colour-1 nodes are exactly the stack, a walk without repetition. */
    ghost predicate Valid()
      reads this
    {
      && (forall r | r in color :: r in interfaces && (color[r] == 1 || color[r] == 2))
      && (forall r :: r in stack <==> Colored(r, 1))
      && (forall r :: r in finished <==> Colored(r, 2))
      && Distinct(stack)
      && Distinct(finished)
      && IsWalk(interfaces, stack)
      && RankedBut(interfaces, finished, findings)
      && (forall f | f in findings :: IsCycleFinding(interfaces, f))
    }

    constructor (g: map<string, Interface>)
      ensures Valid() && interfaces == g
      ensures color == map[] && stack == [] && findings == {}
    {
      interfaces := g;
      color, stack, findings, finished := map[], [], {}, [];
    }

    /** With an empty stack, whatever has been seen is done. */
    lemma AllDone()
      requires Valid() && stack == [] && forall r :: r in color <==> r in interfaces
      ensures color == map r | r in interfaces :: 2
      ensures forall r :: r in finished <==> r in interfaces
    {
      forall r | r in interfaces ensures Colored(r, 2) {
        assert !Colored(r, 1);
      }
    }

    /** Paints an unseen node 1 and pushes it. */
    method Enter(rid: string)
      requires Valid() && rid in interfaces && rid !in color
      requires stack == [] || Extends(interfaces, stack[|stack| - 1], rid)
      modifies this
      ensures Valid()
      ensures stack == old(stack) + [rid]
      ensures findings == old(findings) && color == old(color)[rid := 1]
    {
      assert !Colored(rid, 1) && !Colored(rid, 2);
      DistinctSnoc(stack, rid);
      WalkPush(interfaces, stack, rid);
      color := color[rid := 1];
      stack := stack + [rid];
      assert Colored(rid, 1);
      assert forall r | r != rid :: Colored(r, 1) <==> old(Colored(r, 1));
      assert forall r :: Colored(r, 2) <==> old(Colored(r, 2));
    }

    /** Pops the top of the stack and paints it 2. */
    method Finish(rid: string)
      requires Valid() && rid in interfaces
      requires stack != [] && stack[|stack| - 1] == rid
      requires forall b | Extends(interfaces, rid, b) :: Colored(b, 2) || Closes(findings, rid, b)
      modifies this
      ensures Valid()
      ensures stack == old(stack)[..|old(stack)| - 1]
      ensures findings == old(findings) && color == old(color)[rid := 2]
    {
      var top := |stack| - 1;
      assert rid in stack && stack == stack[..top] + [rid];
      assert forall r :: r in stack[..top] <==> r in stack && r != rid;
      assert Colored(rid, 1) && !Colored(rid, 2);
      DistinctSnoc(finished, rid);
      stack := stack[..top];
      color := color[rid := 2];
      assert Colored(rid, 2);
      assert forall r :: Colored(r, 1) <==> r != rid && old(Colored(r, 1));
      assert forall r | r != rid :: Colored(r, 2) <==> old(Colored(r, 2));
      RankOneMore(interfaces, finished, findings, rid);
      finished := finished + [rid];
    }

    /** `rid` is on the stack and the top of the stack extends it. */
    method ReportCycle(rid: string)
      requires Valid() && Colored(rid, 1)
      requires stack != [] && Extends(interfaces, stack[|stack| - 1], rid)
      modifies this`findings
      ensures Valid()
      ensures old(findings) <= findings && Closes(findings, stack[|stack| - 1], rid)
    {
      var i := IndexOf(stack, rid);
      var cycle := stack[i..] + [rid];
      WalkPush(interfaces, stack[i..], rid);
      assert cycle[..|cycle| - 1] == stack[i..];
      assert cycle[|cycle| - 2..] == [stack[|stack| - 1], rid];
      MoreReports(findings, findings + {ExtendsCycle(cycle)});
      findings := findings + {ExtendsCycle(cycle)};
    }

    method Visit(rid: string)
      requires Valid() && rid in interfaces
      requires stack == [] || Extends(interfaces, stack[|stack| - 1], rid)
      modifies this
      ensures Valid()
      ensures stack == old(stack)
      ensures old(color).Keys <= color.Keys && old(findings) <= findings
      ensures forall r | old(Colored(r, 2)) :: Colored(r, 2)
      ensures Colored(rid, 2) || (stack != [] && Closes(findings, stack[|stack| - 1], rid))
      ensures old(rid !in color) ==> Colored(rid, 2)
      decreases interfaces.Keys - color.Keys, 0
    {
      if rid in color && color[rid] == 1 {
        assert rid in stack;
        ReportCycle(rid);
        return;
      }
      if rid in color && color[rid] == 2 {
        return;
      }
      Enter(rid);
      assert forall r | old(Colored(r, 2)) :: Colored(r, 2);
      VisitParents(rid);
      Finish(rid);
    }

    /** The loop over the registered parents of the interface on top of the stack. */
    method VisitParents(rid: string)
      requires Valid() && rid in interfaces
      requires stack != [] && stack[|stack| - 1] == rid
      modifies this
      ensures Valid()
      ensures stack == old(stack)
      ensures old(color).Keys <= color.Keys && old(findings) <= findings
      ensures forall r | old(Colored(r, 2)) :: Colored(r, 2)
      ensures forall b | Extends(interfaces, rid, b) :: Colored(b, 2) || Closes(findings, rid, b)
      decreases interfaces.Keys - color.Keys, 1
    {
      var parents := interfaces[rid].parents;
      for i := 0 to |parents|
        invariant Valid()
        invariant stack == old(stack)
        invariant old(color).Keys <= color.Keys && old(findings) <= findings
        invariant forall r | old(Colored(r, 2)) :: Colored(r, 2)
        invariant forall j | 0 <= j < i && parents[j] in interfaces ::
          Colored(parents[j], 2) || Closes(findings, rid, parents[j])
      {
        if parents[i] in interfaces {
          ghost var before := findings;
          assert Extends(interfaces, rid, parents[i]);
          Visit(parents[i]);
          MoreReports(before, findings);
        }
      }
    }
  }

  /** One search from every interface not seen before, in any order. */
  method SearchAll(g: map<string, Interface>) returns (search: ExtendsSearch)
    ensures search.Valid() && search.interfaces == g && search.stack == []
    ensures forall r :: r in search.color <==> r in g
  {
    search := new ExtendsSearch(g);
    var todo := g.Keys;
    while todo != {}
      invariant search.Valid() && search.interfaces == g && fresh(search)
      invariant search.stack == []
      invariant todo <= g.Keys
      invariant forall r | r in g && r !in todo :: r in search.color
      decreases todo
    {
      var rid :| rid in todo;
      if rid !in search.color {
        search.Visit(rid);
      }
      todo := todo - {rid};
    }
  }

  /** Every interface ends done; every cycle is reported, and only cycles are. */
  method FindCycles(g: map<string, Interface>)
    returns (findings: set<Finding>, color: map<string, int>, ghost order: seq<string>)
    ensures findings == {} <==> Acyclic(g)
    ensures findings == {} ==> FinishingOrder(g, order)
    ensures CyclesReported(g, findings)
    ensures forall f | f in findings :: IsCycleFinding(g, f)
    ensures color == map r | r in g :: 2
  {
    var search := SearchAll(g);
    findings, color, order := search.findings, search.color, search.finished;
    search.AllDone();
    SearchIsComplete(g, order, findings);
  }
}
