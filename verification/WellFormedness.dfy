/**
 What the validator is meant to guarantee, stated without the checkers: the reference
 relation of a registry, the extends graph, and the conjuncts of well-formedness.
 */
module WellFormedness {
  import opened Ontology
  import opened Formats

  /** A reference written in a definition of the registry. `source` is a map key. */
  datatype Edge =
    | Implements(owner: Owner, target: string)
    | Inherits(owner: Owner, property: string, target: string)
    | LinkSourceObject(source: string, target: string)
    | LinkSourceInterface(source: string, target: string)
    | LinkTargetObject(source: string, target: string)
    | LinkTargetInterface(source: string, target: string)
    | ExtendsInterface(source: string, target: string)
    | RequiresShared(source: string, target: string)
    | ParameterObject(source: string, index: nat, target: string)
    | ParameterLink(source: string, index: nat, target: string)
    | ParameterInterface(source: string, index: nat, target: string)

  predicate HasEdge(reg: Registry, e: Edge) {
    match e
    case Implements(o, t) => IsOwner(reg, o) && t in EntityOf(reg, o).implements
    case Inherits(o, k, t) =>
      IsOwner(reg, o) && k in EntityOf(reg, o).properties && EntityOf(reg, o).properties[k].inheritFrom == t
    case LinkSourceObject(s, t) => s in reg.links && reg.links[s].sourceObject == t
    case LinkSourceInterface(s, t) => s in reg.links && reg.links[s].sourceInterface == t
    case LinkTargetObject(s, t) => s in reg.links && reg.links[s].targetObject == t
    case LinkTargetInterface(s, t) => s in reg.links && reg.links[s].targetInterface == t
    case ExtendsInterface(s, t) => s in reg.interfaces && t in reg.interfaces[s].parents
    case RequiresShared(s, t) => s in reg.interfaces && t in reg.interfaces[s].requiredShared
    case ParameterObject(s, i, t) =>
      s in reg.actions && i < |reg.actions[s].parameters| && reg.actions[s].parameters[i].objectRid == t
    case ParameterLink(s, i, t) =>
      s in reg.actions && i < |reg.actions[s].parameters| && reg.actions[s].parameters[i].linkRid == t
    case ParameterInterface(s, i, t) =>
      s in reg.actions && i < |reg.actions[s].parameters| && reg.actions[s].parameters[i].interfaceRid == t
  }

  /** The kind of definition an edge has to lead to. */
  function TargetKind(e: Edge): Kind {
    match e
    case Implements(_, _) => InterfaceKind
    case Inherits(_, _, _) => SharedPropertyKind
    case LinkSourceObject(_, _) => ObjectKind
    case LinkSourceInterface(_, _) => InterfaceKind
    case LinkTargetObject(_, _) => ObjectKind
    case LinkTargetInterface(_, _) => InterfaceKind
    case ExtendsInterface(_, _) => InterfaceKind
    case RequiresShared(_, _) => SharedPropertyKind
    case ParameterObject(_, _, _) => ObjectKind
    case ParameterLink(_, _, _) => LinkKind
    case ParameterInterface(_, _, _) => InterfaceKind
  }

  // ----- The extends graph, restricted to registered interfaces -----

  ghost predicate Extends(g: map<string, Interface>, a: string, b: string) {
    a in g && b in g && b in g[a].parents
  }

  ghost predicate IsWalk(g: map<string, Interface>, p: seq<string>) {
    forall i, j | 0 <= i && j == i + 1 && j < |p| :: Extends(g, p[i], p[j])
  }

  /** A walk of one or more edges back to its start. */
  ghost predicate ClosedWalk(g: map<string, Interface>, p: seq<string>) {
    |p| >= 2 && p[0] == p[|p| - 1] && IsWalk(g, p)
  }

  ghost predicate Acyclic(g: map<string, Interface>) {
    forall p :: !ClosedWalk(g, p)
  }

  lemma FirstStep(g: map<string, Interface>, p: seq<string>)
    requires ClosedWalk(g, p)
    ensures Extends(g, p[0], p[1])
  {}

  // ----- The rules -----

  /** A non-empty reference to something that is not registered. */
  predicate Dangling(reg: Registry, e: Edge) {
    HasEdge(reg, e) && e.target != "" && e.target !in Keys(reg, TargetKind(e))
  }

  ghost predicate NoDangling(reg: Registry) {
    forall e :: HasEdge(reg, e) ==> !Dangling(reg, e)
  }

  /** `key` is the rid of one of the entity's own properties. */
  predicate IsLocalProperty(ent: Entity, key: string) {
    exists k :: k in ent.properties && ent.properties[k].rid == key
  }

  ghost predicate LocalKeysOk(reg: Registry) {
    forall o, i | IsOwner(reg, o) && 0 <= i < |EntityOf(reg, o).primaryKeys| ::
      var key := EntityOf(reg, o).primaryKeys[i];
      key == "" || IsLocalProperty(EntityOf(reg, o), key)
  }

  function RidPrefix(kind: Kind): string {
    match kind
    case SharedPropertyKind => "shprop"
    case InterfaceKind => "iface"
    case ObjectKind => "obj"
    case LinkKind => "link"
    case ActionKind => "action"
  }

  predicate NamesOk(rid: string, apiName: string, prefix: string) {
    IsRid(rid, prefix) && (apiName == "" || IsApiName(apiName))
  }

  ghost predicate StructureOk(reg: Registry) {
    && (forall kind, key | key in Keys(reg, kind) ::
          NamesOk(Head(reg, kind, key).0, Head(reg, kind, key).1, RidPrefix(kind)))
    && (forall o, k | IsOwner(reg, o) && k in EntityOf(reg, o).properties ::
          NamesOk(EntityOf(reg, o).properties[k].rid, EntityOf(reg, o).properties[k].apiName, "prop"))
  }

  predicate ShapeOk(i: Interface) {
    match i.category
    case ObjectInterface => i.objectConstraint.None?
    case LinkInterface => i.linkRequirements == []
    case InvalidCategory => false
  }

  ghost predicate CategoriesOk(g: map<string, Interface>) {
    && (forall r | r in g :: ShapeOk(g[r]))
    && (forall a, b | Extends(g, a, b) :: g[a].category == g[b].category)
  }

  predicate BackingOk(p: Property, shared: map<string, SharedProperty>) {
    && (p.physicalColumn == "" <==> p.virtualExpression != "")
    && (p.inheritFrom != "" && p.inheritFrom in shared ==> p.dataType == shared[p.inheritFrom].dataType)
  }

  ghost predicate BackingsOk(reg: Registry) {
    forall o, k | IsOwner(reg, o) && k in EntityOf(reg, o).properties ::
      BackingOk(EntityOf(reg, o).properties[k], reg.sharedProperties)
  }

  /** `name` is the non-empty api name of one of the entity's properties. */
  predicate IsPropertyName(ent: Entity, name: string) {
    name != "" && exists k :: k in ent.properties && ent.properties[k].apiName == name
  }

  ghost predicate RulesOk(ent: Entity) {
    forall i | 0 <= i < |ent.rules| && ent.rules[i].crossProperty.Some? ::
      forall name | name in References(ent.rules[i].crossProperty.value, 0) :: IsPropertyName(ent, name)
  }

  ghost predicate CrossPropertiesOk(reg: Registry) {
    forall o | IsOwner(reg, o) :: RulesOk(EntityOf(reg, o))
  }

  /** Every rule of the validator that depends on the registry alone. */
  ghost predicate WellFormed(reg: Registry) {
    && StructureOk(reg)
    && NoDangling(reg)
    && LocalKeysOk(reg)
    && CategoriesOk(reg.interfaces)
    && Acyclic(reg.interfaces)
    && BackingsOk(reg)
    && CrossPropertiesOk(reg)
  }

  predicate ConnectionOk(am: AssetMapping, conns: set<string>) {
    am.readConnectionId == "" || am.readConnectionId in conns
  }

  /** The one rule that depends on the connections registered outside. */
  ghost predicate ConnectionsOk(reg: Registry, conns: set<string>) {
    forall o | IsOwner(reg, o) :: ConnectionOk(EntityOf(reg, o).mapping, conns)
  }

  ghost predicate Valid(reg: Registry, conns: set<string>) {
    WellFormed(reg) && ConnectionsOk(reg, conns)
  }

  lemma EmptyIsValid(conns: set<string>)
    ensures Valid(EmptyRegistry(), conns)
  {
    forall p ensures !ClosedWalk(EmptyRegistry().interfaces, p) {
      if ClosedWalk(EmptyRegistry().interfaces, p) {
        FirstStep(EmptyRegistry().interfaces, p);
      }
    }
  }

  /** Along a walk from a registry without errors, nothing changes category. */
  lemma {:induction false} WalkKeepsCategory(g: map<string, Interface>, p: seq<string>, n: nat)
    requires CategoriesOk(g) && IsWalk(g, p) && n < |p| && p[0] in g
    ensures p[n] in g && g[p[n]].category == g[p[0]].category
  {
    if n > 0 {
      WalkKeepsCategory(g, p, n - 1);
      assert Extends(g, p[n - 1], p[n]);
    }
  }
}
