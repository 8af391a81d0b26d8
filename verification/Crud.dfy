/**
 The edits of a registry (onto_platform/registry/crud.py, onto_platform/registry/imports.py).
 Every edit but a delete validates its result; a delete only asks for referrers.
 */
module Crud {
  import opened Wrappers
  import opened Ontology
  import opened WellFormedness
  import opened Findings
  import Validator
  import opened RefsScan

  datatype ImportMode = Replace | Merge

  datatype Edit =
    | Put(definition: Definition)
    | Delete(kind: Kind, rid: string)
    | SetMapping(rid: string, mapping: AssetMapping)
    | Import(incoming: Registry, mode: ImportMode)

  datatype EditError = ValidationFailed | StillReferenced | TargetNotFound

  function PutCandidate(reg: Registry, d: Definition): Registry {
    match d
    case SharedPropertyDef(x) => reg.(sharedProperties := reg.sharedProperties[x.rid := x])
    case InterfaceDef(x) => reg.(interfaces := reg.interfaces[x.rid := x])
    case ObjectDef(x) => reg.(objects := reg.objects[x.entity.rid := x])
    case LinkDef(x) => reg.(links := reg.links[x.entity.rid := x])
    case ActionDef(x) => reg.(actions := reg.actions[x.rid := x])
  }

  function Remove(reg: Registry, kind: Kind, rid: string): Registry {
    match kind
    case SharedPropertyKind => reg.(sharedProperties := reg.sharedProperties - {rid})
    case InterfaceKind => reg.(interfaces := reg.interfaces - {rid})
    case ObjectKind => reg.(objects := reg.objects - {rid})
    case LinkKind => reg.(links := reg.links - {rid})
    case ActionKind => reg.(actions := reg.actions - {rid})
  }

  /** Object types are looked up before link types. */
  function MappingCandidate(reg: Registry, rid: string, am: AssetMapping): Option<Registry> {
    if rid in reg.objects then
      var x := reg.objects[rid];
      Some(reg.(objects := reg.objects[rid := x.(entity := x.entity.(mapping := am))]))
    else if rid in reg.links then
      var x := reg.links[rid];
      Some(reg.(links := reg.links[rid := x.(entity := x.entity.(mapping := am))]))
    else
      None
  }

  /** The merge: definitions of `incoming` win, and so does its version tag unless it is empty. */
  function Overlay(base: Registry, incoming: Registry): Registry {
    Registry(
      if incoming.version != "" then incoming.version else base.version,
      base.sharedProperties + incoming.sharedProperties,
      base.interfaces + incoming.interfaces,
      base.objects + incoming.objects,
      base.links + incoming.links,
      base.actions + incoming.actions)
  }

  function ImportCandidate(base: Registry, incoming: Registry, mode: ImportMode): Registry {
    match mode
    case Replace => incoming
    case Merge => Overlay(base, incoming)
  }

  ghost function Checked(candidate: Registry, conns: set<string>): Result<Registry, EditError> {
    if Valid(candidate, conns) then Ok(candidate) else Err(ValidationFailed)
  }

  /** What an edit returns or raises. */
  ghost function ApplyEdit(reg: Registry, e: Edit, conns: set<string>): Result<Registry, EditError> {
    match e
    case Put(d) => Checked(PutCandidate(reg, d), conns)
    case Delete(kind, rid) =>
      if Unreferenced(reg, rid) then Ok(Remove(reg, kind, rid)) else Err(StillReferenced)
    case SetMapping(rid, am) =>
      (match MappingCandidate(reg, rid, am)
       case None => Err(TargetNotFound)
       case Some(candidate) => Checked(candidate, conns))
    case Import(incoming, mode) => Checked(ImportCandidate(reg, incoming, mode), conns)
  }

  method ValidateOrRaise(candidate: Registry, conns: set<string>) returns (r: Result<Registry, EditError>)
    ensures r == Checked(candidate, conns)
  {
    var findings := Validator.Validate(candidate, conns);
    r := if HasErrors(findings) then Err(ValidationFailed) else Ok(candidate);
  }

  /** The edits, computed by the validator and the referrer scan. */
  method RunEdit(reg: Registry, e: Edit, conns: set<string>) returns (r: Result<Registry, EditError>)
    ensures r == ApplyEdit(reg, e, conns)
  {
    match e {
      case Put(d) =>
        r := ValidateOrRaise(PutCandidate(reg, d), conns);
      case Delete(kind, rid) =>
        var referrers := FindReferrers(reg, rid);
        r := if referrers != [] then Err(StillReferenced) else Ok(Remove(reg, kind, rid));
      case SetMapping(rid, am) =>
        var candidate := MappingCandidate(reg, rid, am);
        if candidate.None? {
          r := Err(TargetNotFound);
        } else {
          r := ValidateOrRaise(candidate.value, conns);
        }
      case Import(incoming, mode) =>
        r := ValidateOrRaise(ImportCandidate(reg, incoming, mode), conns);
    }
  }

  // ----- What an edit changes -----

  /** A put stores the definition under its own rid and changes nothing else. */
  lemma PutChangesOneKey(reg: Registry, d: Definition)
    ensures PutCandidate(reg, d).version == reg.version
    ensures forall kind, key :: Lookup(PutCandidate(reg, d), kind, key) ==
              if kind == KindOf(d) && key == RidOf(d) then Some(d) else Lookup(reg, kind, key)
  {}

  /** A removal forgets one key and changes nothing else. */
  lemma RemoveChangesOneKey(reg: Registry, kind: Kind, rid: string)
    ensures Remove(reg, kind, rid).version == reg.version
    ensures forall k, key :: Lookup(Remove(reg, kind, rid), k, key) ==
              if k == kind && key == rid then None else Lookup(reg, k, key)
  {}

  function WithMapping(d: Definition, am: AssetMapping): Definition {
    match d
    case ObjectDef(x) => ObjectDef(x.(entity := x.entity.(mapping := am)))
    case LinkDef(x) => LinkDef(x.(entity := x.entity.(mapping := am)))
    case _ => d
  }

  /** Setting a mapping changes the mapping of one entity; an object hides a link of the same rid. */
  lemma SetMappingChangesOneMapping(reg: Registry, rid: string, am: AssetMapping)
    ensures MappingCandidate(reg, rid, am).Some? <==> rid in reg.objects || rid in reg.links
    ensures MappingCandidate(reg, rid, am).Some? ==>
      var target := if rid in reg.objects then ObjectKind else LinkKind;
      var candidate := MappingCandidate(reg, rid, am).value;
      && candidate.version == reg.version
      && forall kind, key :: Lookup(candidate, kind, key) ==
           if kind == target && key == rid then Some(WithMapping(Lookup(reg, kind, key).value, am))
           else Lookup(reg, kind, key)
  {}

  // ----- Removing definitions -----

  ghost predicate SubMap<V>(small: map<string, V>, big: map<string, V>) {
    forall k | k in small :: k in big && small[k] == big[k]
  }

  ghost predicate SubRegistry(small: Registry, big: Registry) {
    && SubMap(small.sharedProperties, big.sharedProperties)
    && SubMap(small.interfaces, big.interfaces)
    && SubMap(small.objects, big.objects)
    && SubMap(small.links, big.links)
    && SubMap(small.actions, big.actions)
  }

  lemma SubOwner(small: Registry, big: Registry, o: Owner)
    requires SubRegistry(small, big) && IsOwner(small, o)
    ensures IsOwner(big, o) && EntityOf(big, o) == EntityOf(small, o)
  {}

  lemma SubEdge(small: Registry, big: Registry, e: Edge)
    requires SubRegistry(small, big) && HasEdge(small, e)
    ensures HasEdge(big, e)
  {
    match e
    case Implements(o, t) => SubOwner(small, big, o);
    case Inherits(o, k, t) => SubOwner(small, big, o);
    case _ =>
  }

  lemma SubStructure(small: Registry, big: Registry)
    requires SubRegistry(small, big) && StructureOk(big)
    ensures StructureOk(small)
  {
    forall kind, key | key in Keys(small, kind)
      ensures NamesOk(Head(small, kind, key).0, Head(small, kind, key).1, RidPrefix(kind))
    {
      assert key in Keys(big, kind) && Head(small, kind, key) == Head(big, kind, key);
    }
    forall o, k | IsOwner(small, o) && k in EntityOf(small, o).properties
      ensures NamesOk(EntityOf(small, o).properties[k].rid, EntityOf(small, o).properties[k].apiName, "prop")
    {
      SubOwner(small, big, o);
    }
  }

  lemma SubGraph(small: map<string, Interface>, big: map<string, Interface>)
    requires SubMap(small, big)
    ensures CategoriesOk(big) ==> CategoriesOk(small)
    ensures Acyclic(big) ==> Acyclic(small)
  {
    forall a, b | Extends(small, a, b) ensures Extends(big, a, b) {}
    forall p | ClosedWalk(small, p) ensures ClosedWalk(big, p) {}
  }

  lemma SubEntities(small: Registry, big: Registry)
    requires SubRegistry(small, big)
    ensures LocalKeysOk(big) ==> LocalKeysOk(small)
    ensures CrossPropertiesOk(big) ==> CrossPropertiesOk(small)
    ensures BackingsOk(big) ==> BackingsOk(small)
    ensures forall conns | ConnectionsOk(big, conns) :: ConnectionsOk(small, conns)
  {
    forall o | IsOwner(small, o) ensures IsOwner(big, o) && EntityOf(big, o) == EntityOf(small, o) {
      SubOwner(small, big, o);
    }
    if BackingsOk(big) {
      forall o, k | IsOwner(small, o) && k in EntityOf(small, o).properties
        ensures BackingOk(EntityOf(small, o).properties[k], small.sharedProperties)
      {
        assert BackingOk(EntityOf(big, o).properties[k], big.sharedProperties);
      }
    }
  }

  /** Dropping definitions from a well-formed registry can break nothing but references. */
  lemma SubRegistryWellFormed(small: Registry, big: Registry)
    requires SubRegistry(small, big) && WellFormed(big)
    ensures WellFormed(small) <==> NoDangling(small)
  {
    SubStructure(small, big);
    SubGraph(small.interfaces, big.interfaces);
    SubEntities(small, big);
  }

  /** No surviving definition refers to the removed one. */
  ghost predicate SafeToRemove(reg: Registry, kind: Kind, rid: string) {
    forall e | HasEdge(Remove(reg, kind, rid), e) :: !(rid != "" && e.target == rid && TargetKind(e) == kind)
  }

  lemma RemoveIsSub(reg: Registry, kind: Kind, rid: string)
    ensures SubRegistry(Remove(reg, kind, rid), reg)
    ensures forall k :: Keys(Remove(reg, kind, rid), k) == if k == kind then Keys(reg, k) - {rid} else Keys(reg, k)
  {}

  /** Exactly when removing a definition, guarded or not, keeps a registry well-formed. */
  lemma RemovalIsSafeIff(reg: Registry, kind: Kind, rid: string)
    requires WellFormed(reg)
    ensures WellFormed(Remove(reg, kind, rid)) <==> SafeToRemove(reg, kind, rid)
  {
    var small := Remove(reg, kind, rid);
    RemoveIsSub(reg, kind, rid);
    SubRegistryWellFormed(small, reg);
    forall e | HasEdge(small, e)
      ensures Dangling(small, e) <==> rid != "" && e.target == rid && TargetKind(e) == kind
    {
      SubEdge(small, reg, e);
      assert !Dangling(reg, e);
    }
  }

  /** The guard of delete is sufficient: the scan covers every reference that validation checks. */
  lemma DeleteKeepsValid(reg: Registry, kind: Kind, rid: string)
    requires Unreferenced(reg, rid)
    ensures WellFormed(reg) ==> WellFormed(Remove(reg, kind, rid))
    ensures forall conns | Valid(reg, conns) :: Valid(Remove(reg, kind, rid), conns)
  {
    var small := Remove(reg, kind, rid);
    RemoveIsSub(reg, kind, rid);
    SubEntities(small, reg);
    if WellFormed(reg) {
      forall e | HasEdge(small, e) ensures e.target != rid {
        SubEdge(small, reg, e);
        assert !IsReferrer(reg, rid, ViaEdge(e));
      }
      RemovalIsSafeIff(reg, kind, rid);
    }
  }

  /** Nothing refers to an action type, so removing one is safe even where delete refuses. */
  lemma ActionsAreNeverReferenced(reg: Registry, rid: string)
    requires WellFormed(reg)
    ensures WellFormed(Remove(reg, ActionKind, rid))
  {
    RemovalIsSafeIff(reg, ActionKind, rid);
  }

  /** Every edit that succeeds on a valid registry returns a valid one. */
  lemma EditKeepsValid(reg: Registry, e: Edit, conns: set<string>)
    requires ApplyEdit(reg, e, conns).Ok?
    ensures WellFormed(reg) ==> WellFormed(ApplyEdit(reg, e, conns).value)
    ensures Valid(reg, conns) ==> Valid(ApplyEdit(reg, e, conns).value, conns)
  {
    if e.Delete? {
      DeleteKeepsValid(reg, e.kind, e.rid);
    }
  }

  // ----- Merging -----

  /** Every key of `a` is a key of `b`. */
  ghost predicate KeysWithin(a: Registry, b: Registry) {
    forall kind :: Keys(a, kind) <= Keys(b, kind)
  }

  /** Merging loses no key of the base, whatever comes in. */
  lemma OverlayKeepsKeys(base: Registry, incoming: Registry)
    ensures KeysWithin(base, Overlay(base, incoming)) && KeysWithin(incoming, Overlay(base, incoming))
  {}

  lemma PutKeepsKeys(reg: Registry, d: Definition)
    ensures KeysWithin(reg, PutCandidate(reg, d))
  {}

  lemma MappingKeepsKeys(reg: Registry, rid: string, am: AssetMapping)
    requires MappingCandidate(reg, rid, am).Some?
    ensures KeysWithin(reg, MappingCandidate(reg, rid, am).value)
  {}

  /** On every key the incoming definition wins, and the base's stays where none comes in. */
  lemma OverlayLooksUp(base: Registry, incoming: Registry, kind: Kind, key: string)
    ensures Lookup(Overlay(base, incoming), kind, key) ==
            if key in Keys(incoming, kind) then Lookup(incoming, kind, key) else Lookup(base, kind, key)
  {}

  /** A registry overlaid on the base is itself exactly when it has all the base's keys and keeps a version tag. */
  lemma OverlayAbsorbsIff(base: Registry, w: Registry)
    ensures Overlay(base, w) == w <==> KeysWithin(base, w) && (w.version == "" ==> base.version == "")
  {
    if KeysWithin(base, w) && (w.version == "" ==> base.version == "") {
      forall kind, key ensures Lookup(Overlay(base, w), kind, key) == Lookup(w, kind, key) {
        OverlayLooksUp(base, w, kind, key);
        assert Keys(base, kind) <= Keys(w, kind);
      }
      Extensionality(Overlay(base, w), w);
    }
    if Overlay(base, w) == w {
      OverlayKeepsKeys(base, w);
    }
  }
}
