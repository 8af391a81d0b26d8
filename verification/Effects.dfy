/**
 What each edit does to a registry (onto_platform/registry/crud.py, onto_platform/registry/imports.py),
 field by field and definition by definition, without the functions that compute it.
 */
module Effects {
  import opened Wrappers
  import opened Ontology
  import opened WellFormedness
  import opened RefsScan
  import opened Crud

  ghost predicate Stores<V(!new)>(before: map<string, V>, after: map<string, V>, key: string, v: V) {
    && key in after && after[key] == v
    && forall k | k != key :: (k in after <==> k in before) && (k in before ==> after[k] == before[k])
  }

  ghost predicate Forgets<V(!new)>(before: map<string, V>, after: map<string, V>, key: string) {
    && key !in after
    && forall k | k != key :: (k in after <==> k in before) && (k in before ==> after[k] == before[k])
  }

  /** Definitions of `incoming` win over those of `before`. */
  ghost predicate Merges<V(!new)>(before: map<string, V>, incoming: map<string, V>, after: map<string, V>) {
    && (forall k :: k in after <==> k in before || k in incoming)
    && (forall k | k in incoming :: after[k] == incoming[k])
    && (forall k | k in before && k !in incoming :: after[k] == before[k])
  }

  /** The registries differ at most in the definitions of one kind. */
  predicate OnlyChanges(before: Registry, after: Registry, kind: Kind) {
    && after.version == before.version
    && (kind.SharedPropertyKind? || after.sharedProperties == before.sharedProperties)
    && (kind.InterfaceKind? || after.interfaces == before.interfaces)
    && (kind.ObjectKind? || after.objects == before.objects)
    && (kind.LinkKind? || after.links == before.links)
    && (kind.ActionKind? || after.actions == before.actions)
  }

  /** The definition is stored under its own rid, among those of its kind. */
  ghost predicate PutEffect(before: Registry, after: Registry, d: Definition) {
    match d
    case SharedPropertyDef(x) =>
      OnlyChanges(before, after, SharedPropertyKind) && Stores(before.sharedProperties, after.sharedProperties, x.rid, x)
    case InterfaceDef(x) =>
      OnlyChanges(before, after, InterfaceKind) && Stores(before.interfaces, after.interfaces, x.rid, x)
    case ObjectDef(x) =>
      OnlyChanges(before, after, ObjectKind) && Stores(before.objects, after.objects, x.entity.rid, x)
    case LinkDef(x) =>
      OnlyChanges(before, after, LinkKind) && Stores(before.links, after.links, x.entity.rid, x)
    case ActionDef(x) =>
      OnlyChanges(before, after, ActionKind) && Stores(before.actions, after.actions, x.rid, x)
  }

  ghost predicate DeleteEffect(before: Registry, after: Registry, kind: Kind, rid: string) {
    && OnlyChanges(before, after, kind)
    && match kind
       case SharedPropertyKind => Forgets(before.sharedProperties, after.sharedProperties, rid)
       case InterfaceKind => Forgets(before.interfaces, after.interfaces, rid)
       case ObjectKind => Forgets(before.objects, after.objects, rid)
       case LinkKind => Forgets(before.links, after.links, rid)
       case ActionKind => Forgets(before.actions, after.actions, rid)
  }

  /** Nothing but the mapping of the object type changes or, if there is none of that key, of the link type. */
  ghost predicate MappingEffect(before: Registry, after: Registry, rid: string, am: AssetMapping) {
    if rid in before.objects then
      var x := before.objects[rid];
      && OnlyChanges(before, after, ObjectKind)
      && Stores(before.objects, after.objects, rid, ObjectType(x.entity.(mapping := am)))
    else
      && rid in before.links && OnlyChanges(before, after, LinkKind)
      && var x := before.links[rid];
      Stores(before.links, after.links, rid,
             LinkType(x.entity.(mapping := am), x.sourceObject, x.sourceInterface, x.targetObject, x.targetInterface))
  }

  /** Whatever comes in wins, and so does its version tag unless it is empty; the rest stays. */
  ghost predicate MergeEffect(before: Registry, after: Registry, incoming: Registry) {
    && (incoming.version != "" ==> after.version == incoming.version)
    && (incoming.version == "" ==> after.version == before.version)
    && Merges(before.sharedProperties, incoming.sharedProperties, after.sharedProperties)
    && Merges(before.interfaces, incoming.interfaces, after.interfaces)
    && Merges(before.objects, incoming.objects, after.objects)
    && Merges(before.links, incoming.links, after.links)
    && Merges(before.actions, incoming.actions, after.actions)
  }

  /** The candidate that an edit asks for. */
  ghost predicate Asks(before: Registry, after: Registry, e: Edit) {
    match e
    case Put(d) => PutEffect(before, after, d)
    case Delete(kind, rid) => DeleteEffect(before, after, kind, rid)
    case SetMapping(rid, am) => MappingEffect(before, after, rid, am)
    case Import(incoming, Replace) => after == incoming
    case Import(incoming, Merge) => MergeEffect(before, after, incoming)
  }

  // ----- The edits do just that -----

  lemma StoresIff<V(!new)>(before: map<string, V>, after: map<string, V>, key: string, v: V)
    ensures Stores(before, after, key, v) <==> after == before[key := v]
  {}

  lemma ForgetsIff<V(!new)>(before: map<string, V>, after: map<string, V>, key: string)
    ensures Forgets(before, after, key) <==> after == before - {key}
  {}

  lemma MergesIff<V(!new)>(before: map<string, V>, incoming: map<string, V>, after: map<string, V>)
    ensures Merges(before, incoming, after) <==> after == before + incoming
  {}

  lemma PutIff(before: Registry, after: Registry, d: Definition)
    ensures PutEffect(before, after, d) <==> after == PutCandidate(before, d)
  {
    match d
    case SharedPropertyDef(x) => StoresIff(before.sharedProperties, after.sharedProperties, x.rid, x);
    case InterfaceDef(x) => StoresIff(before.interfaces, after.interfaces, x.rid, x);
    case ObjectDef(x) => StoresIff(before.objects, after.objects, x.entity.rid, x);
    case LinkDef(x) => StoresIff(before.links, after.links, x.entity.rid, x);
    case ActionDef(x) => StoresIff(before.actions, after.actions, x.rid, x);
  }

  lemma DeleteIff(before: Registry, after: Registry, kind: Kind, rid: string)
    ensures DeleteEffect(before, after, kind, rid) <==> after == Remove(before, kind, rid)
  {
    match kind
    case SharedPropertyKind => ForgetsIff(before.sharedProperties, after.sharedProperties, rid);
    case InterfaceKind => ForgetsIff(before.interfaces, after.interfaces, rid);
    case ObjectKind => ForgetsIff(before.objects, after.objects, rid);
    case LinkKind => ForgetsIff(before.links, after.links, rid);
    case ActionKind => ForgetsIff(before.actions, after.actions, rid);
  }

  lemma MappingIff(before: Registry, after: Registry, rid: string, am: AssetMapping)
    ensures MappingEffect(before, after, rid, am) <==> MappingCandidate(before, rid, am) == Some(after)
  {
    if rid in before.objects {
      var x := before.objects[rid];
      StoresIff(before.objects, after.objects, rid, ObjectType(x.entity.(mapping := am)));
    } else if rid in before.links {
      var x := before.links[rid];
      StoresIff(before.links, after.links, rid,
                LinkType(x.entity.(mapping := am), x.sourceObject, x.sourceInterface, x.targetObject, x.targetInterface));
    }
  }

  lemma MergeIff(before: Registry, after: Registry, incoming: Registry)
    ensures MergeEffect(before, after, incoming) <==> after == Overlay(before, incoming)
  {
    MergesIff(before.sharedProperties, incoming.sharedProperties, after.sharedProperties);
    MergesIff(before.interfaces, incoming.interfaces, after.interfaces);
    MergesIff(before.objects, incoming.objects, after.objects);
    MergesIff(before.links, incoming.links, after.links);
    MergesIff(before.actions, incoming.actions, after.actions);
  }

  ghost function Candidate(before: Registry, e: Edit): Option<Registry> {
    match e
    case Put(d) => Some(PutCandidate(before, d))
    case Delete(kind, rid) => Some(Remove(before, kind, rid))
    case SetMapping(rid, am) => MappingCandidate(before, rid, am)
    case Import(incoming, mode) => Some(ImportCandidate(before, incoming, mode))
  }

  lemma AsksIff(before: Registry, after: Registry, e: Edit)
    ensures Asks(before, after, e) <==> Candidate(before, e) == Some(after)
  {
    match e
    case Put(d) => PutIff(before, after, d);
    case Delete(kind, rid) => DeleteIff(before, after, kind, rid);
    case SetMapping(rid, am) => MappingIff(before, after, rid, am);
    case Import(incoming, mode) => MergeIff(before, after, incoming);
  }

  /** What comes of an edit whose candidate is `after`: a delete asks for referrers, the others validate. */
  ghost function Verdict(before: Registry, after: Registry, e: Edit, conns: set<string>): Result<Registry, EditError> {
    if e.Delete? then
      if Unreferenced(before, e.rid) then Ok(after) else Err(StillReferenced)
    else
      if Valid(after, conns) then Ok(after) else Err(ValidationFailed)
  }

  /**
   Every edit has exactly one candidate, and returns it or the error of its guard; only a mapping
   for a key that is neither an object type nor a link type has none.
   */
  lemma EditDoes(before: Registry, e: Edit, conns: set<string>)
    ensures forall after | Asks(before, after, e) :: ApplyEdit(before, e, conns) == Verdict(before, after, e, conns)
    ensures if e.SetMapping? && e.rid !in before.objects && e.rid !in before.links
            then ApplyEdit(before, e, conns) == Err(TargetNotFound)
            else exists after :: Asks(before, after, e)
  {
    forall after ensures Asks(before, after, e) <==> Candidate(before, e) == Some(after) {
      AsksIff(before, after, e);
    }
    if Candidate(before, e).Some? {
      assert Asks(before, Candidate(before, e).value, e);
    }
  }

  /** An accepted merge takes the incoming tag unless it is empty, whatever the keys, and every incoming definition. */
  lemma AcceptedMerge(before: Registry, incoming: Registry, conns: set<string>)
    requires ApplyEdit(before, Import(incoming, Merge), conns).Ok?
    ensures MergeEffect(before, ApplyEdit(before, Import(incoming, Merge), conns).value, incoming)
  {
    var e := Import(incoming, Merge);
    EditDoes(before, e, conns);
    var after :| Asks(before, after, e);
  }
}
