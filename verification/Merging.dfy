/**
 When a merge (onto_platform/registry/imports.py) of two well-formed registries is well-formed. The
 incoming definitions win, and the base's others stay or, if the incoming registry was made from the
 base by deletes, come back.
 */
module Merging {
  import opened Ontology
  import opened WellFormedness
  import opened Crud

  predicate RestoredInterface(base: Registry, w: Registry, r: string) {
    r in base.interfaces && r !in w.interfaces
  }

  predicate RestoredOwner(base: Registry, w: Registry, o: Owner) {
    IsOwner(base, o) && !IsOwner(w, o)
  }

  /**
   Validation takes the empty name for no parent, so `w` may list it freely. If an interface of that
   name is restored, it becomes the parent of `r`.
   */
  predicate GainsEmptyParent(base: Registry, w: Registry, r: string) {
    RestoredInterface(base, w, "") && r in w.interfaces && "" in w.interfaces[r].parents
  }

  /** A restored interface has the category that its parents and its new children have in `w`. */
  ghost predicate CategoriesAgree(base: Registry, w: Registry) {
    && (forall r, p | RestoredInterface(base, w, r) && p in base.interfaces[r].parents && p in w.interfaces ::
          base.interfaces[r].category == w.interfaces[p].category)
    && (forall r | GainsEmptyParent(base, w, r) :: w.interfaces[r].category == base.interfaces[""].category)
  }

  /** The properties of a restored entity agree with the shared types of `w` they inherit from. */
  ghost predicate BackingsAgree(base: Registry, w: Registry) {
    forall o, k | RestoredOwner(base, w, o) && k in EntityOf(base, o).properties ::
      BackingOk(EntityOf(base, o).properties[k], w.sharedProperties)
  }

  ghost predicate IsPath(g: map<string, Interface>, p: seq<string>, a: string, b: string) {
    p != [] && p[0] == a && p[|p| - 1] == b && IsWalk(g, p)
  }

  /** No interface gains as a parent one that already descends from it. */
  ghost predicate NoNewCycle(base: Registry, w: Registry) {
    forall r | GainsEmptyParent(base, w, r) :: !exists p :: IsPath(base.interfaces + w.interfaces, p, "", r)
  }

  ghost predicate MergeAgrees(base: Registry, w: Registry) {
    CategoriesAgree(base, w) && BackingsAgree(base, w) && NoNewCycle(base, w)
  }

  /** The mapped connections of `w` and of all restored entities are registered. */
  ghost predicate ConnectionsAgree(base: Registry, w: Registry, conns: set<string>) {
    && ConnectionsOk(w, conns)
    && forall o | RestoredOwner(base, w, o) :: ConnectionOk(EntityOf(base, o).mapping, conns)
  }

  // ----- What the merge holds -----

  lemma MergedOwner(base: Registry, w: Registry, o: Owner)
    ensures IsOwner(Overlay(base, w), o) <==> IsOwner(w, o) || IsOwner(base, o)
    ensures IsOwner(w, o) ==> EntityOf(Overlay(base, w), o) == EntityOf(w, o)
    ensures RestoredOwner(base, w, o) ==> EntityOf(Overlay(base, w), o) == EntityOf(base, o)
  {}

  lemma MergedEdge(base: Registry, w: Registry, e: Edge)
    requires HasEdge(Overlay(base, w), e)
    ensures HasEdge(base, e) || HasEdge(w, e)
  {
    match e
    case Implements(o, t) => MergedOwner(base, w, o);
    case Inherits(o, k, t) => MergedOwner(base, w, o);
    case _ =>
  }

  lemma MergedReferences(base: Registry, w: Registry)
    requires NoDangling(base) && NoDangling(w)
    ensures NoDangling(Overlay(base, w))
  {
    OverlayKeepsKeys(base, w);
    forall e | HasEdge(Overlay(base, w), e) ensures !Dangling(Overlay(base, w), e) {
      MergedEdge(base, w, e);
      assert Keys(base, TargetKind(e)) <= Keys(Overlay(base, w), TargetKind(e));
      assert Keys(w, TargetKind(e)) <= Keys(Overlay(base, w), TargetKind(e));
    }
  }

  lemma MergedHead(base: Registry, w: Registry, kind: Kind, key: string)
    requires key in Keys(Overlay(base, w), kind)
    ensures key in Keys(w, kind) ==> Head(Overlay(base, w), kind, key) == Head(w, kind, key)
    ensures key !in Keys(w, kind) ==>
      key in Keys(base, kind) && Head(Overlay(base, w), kind, key) == Head(base, kind, key)
  {}

  lemma MergedStructure(base: Registry, w: Registry)
    requires StructureOk(base) && StructureOk(w)
    ensures StructureOk(Overlay(base, w))
  {
    var m := Overlay(base, w);
    forall kind, key | key in Keys(m, kind)
      ensures NamesOk(Head(m, kind, key).0, Head(m, kind, key).1, RidPrefix(kind))
    {
      MergedHead(base, w, kind, key);
      assert NamesOk(Head(if key in Keys(w, kind) then w else base, kind, key).0,
                     Head(if key in Keys(w, kind) then w else base, kind, key).1, RidPrefix(kind));
    }
    forall o, k | IsOwner(m, o) && k in EntityOf(m, o).properties
      ensures NamesOk(EntityOf(m, o).properties[k].rid, EntityOf(m, o).properties[k].apiName, "prop")
    {
      MergedOwner(base, w, o);
      var p := EntityOf(if IsOwner(w, o) then w else base, o).properties[k];
      assert NamesOk(p.rid, p.apiName, "prop");
    }
  }

  lemma MergedEntities(base: Registry, w: Registry)
    requires LocalKeysOk(base) && LocalKeysOk(w) && CrossPropertiesOk(base) && CrossPropertiesOk(w)
    ensures LocalKeysOk(Overlay(base, w)) && CrossPropertiesOk(Overlay(base, w))
  {
    forall o ensures IsOwner(Overlay(base, w), o) ==>
        || (IsOwner(w, o) && EntityOf(Overlay(base, w), o) == EntityOf(w, o))
        || (IsOwner(base, o) && EntityOf(Overlay(base, w), o) == EntityOf(base, o))
    {
      MergedOwner(base, w, o);
    }
  }

  lemma MergedBackings(base: Registry, w: Registry)
    requires BackingsOk(base) && WellFormed(w)
    ensures BackingsOk(Overlay(base, w)) <==> BackingsAgree(base, w)
  {
    var m := Overlay(base, w);
    forall o, k | IsOwner(w, o) && k in EntityOf(w, o).properties
      ensures BackingOk(EntityOf(w, o).properties[k], m.sharedProperties)
    {
      var p := EntityOf(w, o).properties[k];
      assert BackingOk(p, w.sharedProperties);
      assert HasEdge(w, Inherits(o, k, p.inheritFrom));
      assert !Dangling(w, Inherits(o, k, p.inheritFrom));
    }
    forall o, k | RestoredOwner(base, w, o) && k in EntityOf(base, o).properties
      ensures BackingOk(EntityOf(base, o).properties[k], m.sharedProperties) <==>
              BackingOk(EntityOf(base, o).properties[k], w.sharedProperties)
    {
      assert BackingOk(EntityOf(base, o).properties[k], base.sharedProperties);
    }
    forall o ensures IsOwner(m, o) ==> EntityOf(m, o) == if IsOwner(w, o) then EntityOf(w, o) else EntityOf(base, o) {
      MergedOwner(base, w, o);
    }
    if BackingsOk(m) {
      forall o, k | RestoredOwner(base, w, o) && k in EntityOf(base, o).properties
        ensures BackingOk(EntityOf(base, o).properties[k], w.sharedProperties)
      {
        assert IsOwner(m, o) && k in EntityOf(m, o).properties;
      }
    }
  }

  lemma MergedConnections(base: Registry, w: Registry, conns: set<string>)
    ensures ConnectionsOk(Overlay(base, w), conns) <==> ConnectionsAgree(base, w, conns)
  {
    forall o ensures IsOwner(Overlay(base, w), o) <==> IsOwner(w, o) || RestoredOwner(base, w, o) {
      MergedOwner(base, w, o);
    }
    forall o | IsOwner(w, o) ensures EntityOf(Overlay(base, w), o) == EntityOf(w, o) {
      MergedOwner(base, w, o);
    }
    forall o | RestoredOwner(base, w, o) ensures EntityOf(Overlay(base, w), o) == EntityOf(base, o) {
      MergedOwner(base, w, o);
    }
  }

  // ----- The merged extends graph -----

  /** The only way from an interface of `w` to a restored one is by the empty name. */
  lemma LeavingEdge(base: Registry, w: Registry, a: string, b: string)
    requires NoDangling(w) && Extends(base.interfaces + w.interfaces, a, b)
    ensures a in w.interfaces ==> Extends(w.interfaces, a, b) || (b == "" && RestoredInterface(base, w, ""))
    ensures a !in w.interfaces && b !in w.interfaces ==> Extends(base.interfaces, a, b)
  {
    if a in w.interfaces {
      assert HasEdge(w, ExtendsInterface(a, b));
    }
  }

  lemma MergedCategories(base: Registry, w: Registry)
    requires WellFormed(base) && WellFormed(w)
    ensures CategoriesOk(Overlay(base, w).interfaces) <==> CategoriesAgree(base, w)
  {
    var g := Overlay(base, w).interfaces;
    if CategoriesOk(g) {
      forall r, p | RestoredInterface(base, w, r) && p in base.interfaces[r].parents && p in w.interfaces
        ensures base.interfaces[r].category == w.interfaces[p].category
      {
        assert Extends(g, r, p);
      }
      forall r | GainsEmptyParent(base, w, r) ensures w.interfaces[r].category == base.interfaces[""].category {
        assert Extends(g, r, "");
      }
    }
    if CategoriesAgree(base, w) {
      forall a, b | Extends(g, a, b) ensures g[a].category == g[b].category {
        LeavingEdge(base, w, a, b);
        assert a in w.interfaces ==> Extends(w.interfaces, a, b) || GainsEmptyParent(base, w, a);
        assert a !in w.interfaces ==> RestoredInterface(base, w, a);
      }
    }
  }

  /** Step i of the walk leaves the graph of `w`. */
  ghost predicate Leaves(g: map<string, Interface>, p: seq<string>, i: nat) {
    i + 1 < |p| && p[i] in g && p[i + 1] !in g
  }

  lemma {:induction false} NeverLeaves(g: map<string, Interface>, p: seq<string>, i: nat, j: nat)
    requires i <= j < |p| && p[i] in g && forall k: nat :: !Leaves(g, p, k)
    ensures p[j] in g
  {
    if i < j {
      NeverLeaves(g, p, i, j - 1);
      assert !Leaves(g, p, j - 1);
    }
  }

  /** A closed walk of the merge either stays on one side or goes from the empty name back to it. */
  lemma ClosedWalkLeaves(base: Registry, w: Registry, p: seq<string>)
    requires WellFormed(base) && WellFormed(w) && ClosedWalk(base.interfaces + w.interfaces, p)
    ensures exists i: nat :: Leaves(w.interfaces, p, i)
  {
    var g, n := base.interfaces + w.interfaces, |p| - 1;
    if forall i: nat :: !Leaves(w.interfaces, p, i) {
      forall i, j | 0 <= i && j == i + 1 && j < |p|
        ensures if p[0] in w.interfaces then Extends(w.interfaces, p[i], p[j]) else Extends(base.interfaces, p[i], p[j])
      {
        assert Extends(g, p[i], p[j]);
        LeavingEdge(base, w, p[i], p[j]);
        assert !Leaves(w.interfaces, p, i);
        if p[0] in w.interfaces {
          NeverLeaves(w.interfaces, p, 0, i);
        } else if p[j] in w.interfaces {
          NeverLeaves(w.interfaces, p, j, n);
        }
      }
      assert ClosedWalk(if p[0] in w.interfaces then w.interfaces else base.interfaces, p);
    }
  }

  /** A closed walk can be entered anywhere. */
  lemma Rotate(g: map<string, Interface>, p: seq<string>, i: nat)
    requires ClosedWalk(g, p) && i + 1 < |p|
    ensures IsPath(g, p[i + 1..] + p[1..i + 1], p[i + 1], p[i])
  {
    var q, m := p[i + 1..] + p[1..i + 1], |p| - i - 1;
    forall k, l | 0 <= k && l == k + 1 && l < |q| ensures Extends(g, q[k], q[l]) {
      if l < m {
        assert q[k] == p[i + 1 + k] && q[l] == p[i + 1 + l];
      } else {
        assert q[k] == p[k - m + 1] && q[l] == p[l - m + 1] by {
          assert l == m ==> q[k] == p[|p| - 1] == p[0];
        }
      }
    }
  }

  lemma MergedCycles(base: Registry, w: Registry)
    requires WellFormed(base) && WellFormed(w)
    ensures Acyclic(Overlay(base, w).interfaces) <==> NoNewCycle(base, w)
  {
    var g := base.interfaces + w.interfaces;
    if r, p :| GainsEmptyParent(base, w, r) && IsPath(g, p, "", r) {
      assert Extends(g, r, "");
      assert ClosedWalk(g, p + [""]);
    } else {
      forall p ensures !ClosedWalk(g, p) {
        if ClosedWalk(g, p) {
          ClosedWalkLeaves(base, w, p);
          var i: nat :| Leaves(w.interfaces, p, i);
          var next := p[i + 1];
          assert Extends(g, p[i], next);
          LeavingEdge(base, w, p[i], next);
          Rotate(g, p, i);
        }
      }
    }
  }

  // ----- The merge theorem -----

  /** Exactly when merging two well-formed registries gives a well-formed one. */
  lemma MergeIsWellFormedIff(base: Registry, w: Registry)
    requires WellFormed(base) && WellFormed(w)
    ensures WellFormed(Overlay(base, w)) <==> MergeAgrees(base, w)
  {
    MergedStructure(base, w);
    MergedReferences(base, w);
    MergedEntities(base, w);
    MergedBackings(base, w);
    MergedCategories(base, w);
    MergedCycles(base, w);
  }

  /** Exactly when a merge import of a well-formed registry into a well-formed one is accepted. */
  lemma MergeImportsIff(base: Registry, w: Registry, conns: set<string>)
    requires WellFormed(base) && WellFormed(w)
    ensures ApplyEdit(base, Import(w, Merge), conns).Ok? <==> MergeAgrees(base, w) && ConnectionsAgree(base, w, conns)
  {
    MergeIsWellFormedIff(base, w);
    MergedConnections(base, w, conns);
  }
}
