/** The scan that guards every delete (onto_platform/registry/refs_scan.py). */
module RefsScan {
  import opened Sequences
  import opened Ontology
  import opened WellFormedness

  /** One place that mentions the target: a reference, or an object property's own rid. */
  datatype Referrer = ViaEdge(edge: Edge) | ViaPropertyRid(owner: Owner, property: string)

  predicate IsReferrer(reg: Registry, target: string, r: Referrer) {
    match r
    case ViaEdge(e) => HasEdge(reg, e) && e.target == target
    case ViaPropertyRid(o, k) =>
      && o.kind.ObjectKind? && IsOwner(reg, o)
      && k in EntityOf(reg, o).properties && EntityOf(reg, o).properties[k].rid == target
  }

  ghost predicate Unreferenced(reg: Registry, target: string) {
    forall r :: !IsReferrer(reg, target, r)
  }

  /** The definition in which a referrer is found. */
  function Home(r: Referrer): Owner {
    match r
    case ViaPropertyRid(o, _) => o
    case ViaEdge(e) =>
      match e
      case Implements(o, _) => o
      case Inherits(o, _, _) => o
      case LinkSourceObject(s, _) => Owner(LinkKind, s)
      case LinkSourceInterface(s, _) => Owner(LinkKind, s)
      case LinkTargetObject(s, _) => Owner(LinkKind, s)
      case LinkTargetInterface(s, _) => Owner(LinkKind, s)
      case ExtendsInterface(s, _) => Owner(InterfaceKind, s)
      case RequiresShared(s, _) => Owner(InterfaceKind, s)
      case ParameterObject(s, _, _) => Owner(ActionKind, s)
      case ParameterLink(s, _, _) => Owner(ActionKind, s)
      case ParameterInterface(s, _, _) => Owner(ActionKind, s)
  }

  /** Appends one referrer that is not listed yet. */
  function Add(out: seq<Referrer>, r: Referrer): (s: seq<Referrer>)
    requires Distinct(out) && r !in out
    ensures Distinct(s) && forall x :: x in s <==> x in out || x == r
  {
    out + [r]
  }

  /** `out` lists each referrer found in `home` once. */
  ghost predicate Lists(reg: Registry, target: string, home: Owner, out: seq<Referrer>) {
    Distinct(out) && forall r :: r in out <==> IsReferrer(reg, target, r) && Home(r) == home
  }

  /** The property a referrer sits in, if any. */
  function OfProperty(r: Referrer): set<string> {
    match r
    case ViaPropertyRid(_, k) => {k}
    case ViaEdge(e) => if e.Inherits? then {e.property} else {}
  }

  method ScanObject(reg: Registry, target: string, rid: string) returns (out: seq<Referrer>)
    requires rid in reg.objects
    ensures Lists(reg, target, Owner(ObjectKind, rid), out)
  {
    var o := Owner(ObjectKind, rid);
    var ent := reg.objects[rid].entity;
    out := [];
    if target in ent.implements {
      out := Add(out, ViaEdge(Implements(o, target)));
    }
    var todo := ent.properties.Keys;
    while todo != {}
      invariant todo <= ent.properties.Keys && Distinct(out)
      invariant forall r :: r in out <==>
        IsReferrer(reg, target, r) && Home(r) == o && OfProperty(r) <= ent.properties.Keys - todo
    {
      var k :| k in todo;
      if ent.properties[k].inheritFrom == target {
        out := Add(out, ViaEdge(Inherits(o, k, target)));
      }
      if ent.properties[k].rid == target {
        out := Add(out, ViaPropertyRid(o, k));
      }
      todo := todo - {k};
    }
  }

  function EndpointIndex(e: Edge): nat {
    if e.LinkSourceObject? then 0 else if e.LinkSourceInterface? then 1 else if e.LinkTargetObject? then 2 else 3
  }

  predicate IsEndpointEdge(r: Referrer) {
    r.ViaEdge? && (r.edge.LinkSourceObject? || r.edge.LinkSourceInterface? ||
                   r.edge.LinkTargetObject? || r.edge.LinkTargetInterface?)
  }

  function EndpointEdge(rid: string, target: string, i: nat): (e: Edge)
    requires i < 4
    ensures IsEndpointEdge(ViaEdge(e)) && EndpointIndex(e) == i
  {
    if i == 0 then LinkSourceObject(rid, target)
    else if i == 1 then LinkSourceInterface(rid, target)
    else if i == 2 then LinkTargetObject(rid, target)
    else LinkTargetInterface(rid, target)
  }

  /** The four endpoint fields of a link, in the order they are scanned. */
  function EndpointField(link: LinkType, i: nat): string
    requires i < 4
  {
    [link.sourceObject, link.sourceInterface, link.targetObject, link.targetInterface][i]
  }

  method ScanEndpoints(reg: Registry, target: string, rid: string) returns (out: seq<Referrer>)
    requires rid in reg.links
    ensures Distinct(out)
    ensures forall r :: r in out <==>
              IsReferrer(reg, target, r) && Home(r) == Owner(LinkKind, rid) && IsEndpointEdge(r)
  {
    out := [];
    for i := 0 to 4
      invariant Distinct(out)
      invariant forall r :: r in out <==>
        IsReferrer(reg, target, r) && Home(r) == Owner(LinkKind, rid) && IsEndpointEdge(r) && EndpointIndex(r.edge) < i
    {
      if EndpointField(reg.links[rid], i) == target {
        out := Add(out, ViaEdge(EndpointEdge(rid, target, i)));
      }
    }
  }

  method ScanLink(reg: Registry, target: string, rid: string) returns (out: seq<Referrer>)
    requires rid in reg.links
    ensures Lists(reg, target, Owner(LinkKind, rid), out)
  {
    var o := Owner(LinkKind, rid);
    var link := reg.links[rid];
    var ent := link.entity;
    out := ScanEndpoints(reg, target, rid);
    if target in ent.implements {
      out := Add(out, ViaEdge(Implements(o, target)));
    }
    var todo := ent.properties.Keys;
    while todo != {}
      invariant todo <= ent.properties.Keys && Distinct(out)
      invariant forall r :: r in out <==>
        IsReferrer(reg, target, r) && Home(r) == o && OfProperty(r) <= ent.properties.Keys - todo
    {
      var k :| k in todo;
      if ent.properties[k].inheritFrom == target {
        out := Add(out, ViaEdge(Inherits(o, k, target)));
      }
      todo := todo - {k};
    }
  }

  method ScanInterface(reg: Registry, target: string, rid: string) returns (out: seq<Referrer>)
    requires rid in reg.interfaces
    ensures Lists(reg, target, Owner(InterfaceKind, rid), out)
  {
    out := [];
    if target in reg.interfaces[rid].parents {
      out := Add(out, ViaEdge(ExtendsInterface(rid, target)));
    }
    if target in reg.interfaces[rid].requiredShared {
      out := Add(out, ViaEdge(RequiresShared(rid, target)));
    }
  }

  method ScanParameter(reg: Registry, target: string, rid: string, i: nat) returns (out: seq<Referrer>)
    requires rid in reg.actions && i < |reg.actions[rid].parameters|
    ensures Distinct(out)
    ensures forall r :: r in out <==>
              IsReferrer(reg, target, r) && Home(r) == Owner(ActionKind, rid) && r.edge.index == i
  {
    var p := reg.actions[rid].parameters[i];
    out := [];
    if p.objectRid == target { out := Add(out, ViaEdge(ParameterObject(rid, i, target))); }
    if p.linkRid == target { out := Add(out, ViaEdge(ParameterLink(rid, i, target))); }
    if p.interfaceRid == target { out := Add(out, ViaEdge(ParameterInterface(rid, i, target))); }
  }

  method ScanAction(reg: Registry, target: string, rid: string) returns (out: seq<Referrer>)
    requires rid in reg.actions
    ensures Lists(reg, target, Owner(ActionKind, rid), out)
  {
    out := [];
    for i := 0 to |reg.actions[rid].parameters|
      invariant Distinct(out)
      invariant forall r :: r in out <==>
        IsReferrer(reg, target, r) && Home(r) == Owner(ActionKind, rid) && r.edge.index < i
    {
      var found := ScanParameter(reg, target, rid, i);
      DistinctConcat(out, found);
      out := out + found;
    }
  }

  /** All definitions the scan visits. */
  predicate IsHome(reg: Registry, o: Owner) {
    !o.kind.SharedPropertyKind? && o.rid in Keys(reg, o.kind)
  }

  lemma HomeExists(reg: Registry, target: string, r: Referrer)
    requires IsReferrer(reg, target, r)
    ensures IsHome(reg, Home(r))
  {}

  /** One section of the scan: every definition of one kind, in any order. */
  method ScanKind(reg: Registry, target: string, kind: Kind) returns (out: seq<Referrer>)
    requires !kind.SharedPropertyKind?
    ensures Distinct(out)
    ensures forall r :: r in out <==> IsReferrer(reg, target, r) && Home(r).kind == kind
  {
    out := [];
    var todo := Keys(reg, kind);
    while todo != {}
      invariant todo <= Keys(reg, kind) && Distinct(out)
      invariant forall r :: r in out <==>
        IsReferrer(reg, target, r) && Home(r).kind == kind && Home(r).rid !in todo
    {
      var rid :| rid in todo;
      var found;
      match kind {
        case ObjectKind => found := ScanObject(reg, target, rid);
        case LinkKind => found := ScanLink(reg, target, rid);
        case InterfaceKind => found := ScanInterface(reg, target, rid);
        case ActionKind => found := ScanAction(reg, target, rid);
      }
      DistinctConcat(out, found);
      out := out + found;
      todo := todo - {rid};
    }
    forall r | IsReferrer(reg, target, r) ensures Home(r).rid in Keys(reg, Home(r).kind) {
      HomeExists(reg, target, r);
    }
  }

  /** Every place that mentions the target, each once. */
  method FindReferrers(reg: Registry, target: string) returns (out: seq<Referrer>)
    ensures Distinct(out)
    ensures forall r :: r in out <==> IsReferrer(reg, target, r)
    ensures out == [] <==> Unreferenced(reg, target)
  {
    var objects := ScanKind(reg, target, ObjectKind);
    var links := ScanKind(reg, target, LinkKind);
    var interfaces := ScanKind(reg, target, InterfaceKind);
    var actions := ScanKind(reg, target, ActionKind);
    DistinctConcat(objects, links);
    DistinctConcat(objects + links, interfaces);
    DistinctConcat(objects + links + interfaces, actions);
    out := objects + links + interfaces + actions;
    forall r | IsReferrer(reg, target, r) ensures r in out {
      HomeExists(reg, target, r);
    }
    if out != [] {
      assert IsReferrer(reg, target, out[0]);
    }
  }
}
