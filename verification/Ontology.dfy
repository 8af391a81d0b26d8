/**
 The registry: five maps of definitions that refer to each other by map key
 (onto_platform/proto_models.py). Fields that no checker, scanner or writer looks at
 travel along in `other`, so equality of definitions still means equality of all fields.
 */
module Ontology {
  import opened Wrappers

  datatype Kind = SharedPropertyKind | InterfaceKind | ObjectKind | LinkKind | ActionKind

  const KINDS := [SharedPropertyKind, InterfaceKind, ObjectKind, LinkKind, ActionKind]

  datatype DataType =
    DtUnknown | DtString | DtInteger | DtDouble | DtBoolean | DtTimestamp | DtDate | DtAttachment

  datatype Sensitivity = Unspecified | Public | Internal | Confidential | Restricted

  datatype Category = InvalidCategory | ObjectInterface | LinkInterface

  datatype SharedProperty = SharedProperty(
    rid: string, apiName: string, dataType: DataType, other: string)

  datatype Property = Property(
    rid: string, apiName: string, dataType: DataType, inheritFrom: string,
    physicalColumn: string, virtualExpression: string,
    sensitivity: Sensitivity, masking: string, other: string)

  datatype Interface = Interface(
    rid: string, apiName: string, category: Category,
    parents: seq<string>, requiredShared: seq<string>,
    linkRequirements: seq<string>, objectConstraint: Option<string>, other: string)

  datatype AssetMapping = AssetMapping(
    readConnectionId: string, readAssetPath: string, writebackEnabled: bool,
    writebackConnectionId: string, writebackAssetPath: string)

  datatype EntityRule = EntityRule(crossProperty: Option<string>, other: string)

  /** The fields that object types and link types have in common. */
  datatype Entity = Entity(
    rid: string, apiName: string, properties: map<string, Property>,
    implements: seq<string>, primaryKeys: seq<string>,
    rules: seq<EntityRule>, mapping: AssetMapping, other: string)

  datatype ObjectType = ObjectType(entity: Entity)

  datatype LinkType = LinkType(
    entity: Entity,
    sourceObject: string, sourceInterface: string,
    targetObject: string, targetInterface: string)

  datatype Parameter = Parameter(
    apiName: string, objectRid: string, linkRid: string, interfaceRid: string, other: string)

  datatype ActionType = ActionType(
    rid: string, apiName: string, parameters: seq<Parameter>, other: string)

  datatype Registry = Registry(
    version: string,
    sharedProperties: map<string, SharedProperty>,
    interfaces: map<string, Interface>,
    objects: map<string, ObjectType>,
    links: map<string, LinkType>,
    actions: map<string, ActionType>)

  /** A definition of any kind, as one `put` takes it. */
  datatype Definition =
    | SharedPropertyDef(sharedProperty: SharedProperty)
    | InterfaceDef(interface: Interface)
    | ObjectDef(object_: ObjectType)
    | LinkDef(link: LinkType)
    | ActionDef(action: ActionType)

  /** The version tag that marks an environment nobody has written yet. */
  const EMPTY_VERSION := "__empty__"

  function EmptyRegistry(): Registry {
    Registry(EMPTY_VERSION, map[], map[], map[], map[], map[])
  }

  /** The keys of one of the five maps. */
  function Keys(reg: Registry, kind: Kind): set<string> {
    match kind
    case SharedPropertyKind => reg.sharedProperties.Keys
    case InterfaceKind => reg.interfaces.Keys
    case ObjectKind => reg.objects.Keys
    case LinkKind => reg.links.Keys
    case ActionKind => reg.actions.Keys
  }

  /** What is stored under a key of one of the five maps. */
  function Lookup(reg: Registry, kind: Kind, key: string): Option<Definition> {
    if key !in Keys(reg, kind) then
      None
    else
      match kind
      case SharedPropertyKind => Some(SharedPropertyDef(reg.sharedProperties[key]))
      case InterfaceKind => Some(InterfaceDef(reg.interfaces[key]))
      case ObjectKind => Some(ObjectDef(reg.objects[key]))
      case LinkKind => Some(LinkDef(reg.links[key]))
      case ActionKind => Some(ActionDef(reg.actions[key]))
  }

  function KindOf(d: Definition): Kind {
    match d
    case SharedPropertyDef(_) => SharedPropertyKind
    case InterfaceDef(_) => InterfaceKind
    case ObjectDef(_) => ObjectKind
    case LinkDef(_) => LinkKind
    case ActionDef(_) => ActionKind
  }

  /** The key under which a put stores the definition. */
  function RidOf(d: Definition): string {
    match d
    case SharedPropertyDef(x) => x.rid
    case InterfaceDef(x) => x.rid
    case ObjectDef(x) => x.entity.rid
    case LinkDef(x) => x.entity.rid
    case ActionDef(x) => x.rid
  }

  /** Registries hold the same definitions under the same keys. */
  ghost predicate SameDefinitions(a: Registry, b: Registry) {
    forall kind, key :: Lookup(a, kind, key) == Lookup(b, kind, key)
  }

  /** A registry is its version tag and its definitions. */
  lemma Extensionality(a: Registry, b: Registry)
    requires SameDefinitions(a, b)
    ensures a == b.(version := a.version)
  {
    forall k ensures k in a.sharedProperties <==> k in b.sharedProperties
             ensures k in a.sharedProperties ==> a.sharedProperties[k] == b.sharedProperties[k] {
      assert Lookup(a, SharedPropertyKind, k) == Lookup(b, SharedPropertyKind, k);
    }
    forall k ensures k in a.interfaces <==> k in b.interfaces
             ensures k in a.interfaces ==> a.interfaces[k] == b.interfaces[k] {
      assert Lookup(a, InterfaceKind, k) == Lookup(b, InterfaceKind, k);
    }
    forall k ensures k in a.objects <==> k in b.objects
             ensures k in a.objects ==> a.objects[k] == b.objects[k] {
      assert Lookup(a, ObjectKind, k) == Lookup(b, ObjectKind, k);
    }
    forall k ensures k in a.links <==> k in b.links
             ensures k in a.links ==> a.links[k] == b.links[k] {
      assert Lookup(a, LinkKind, k) == Lookup(b, LinkKind, k);
    }
    forall k ensures k in a.actions <==> k in b.actions
             ensures k in a.actions ==> a.actions[k] == b.actions[k] {
      assert Lookup(a, ActionKind, k) == Lookup(b, ActionKind, k);
    }
    assert a.sharedProperties == b.sharedProperties;
    assert a.interfaces == b.interfaces;
    assert a.objects == b.objects;
    assert a.links == b.links;
    assert a.actions == b.actions;
  }

  lemma SameDefinitionsIff(a: Registry, b: Registry)
    ensures SameDefinitions(a, b) <==> a == b.(version := a.version)
  {
    if SameDefinitions(a, b) {
      Extensionality(a, b);
    }
    if a == b.(version := a.version) {
      forall kind, key ensures Lookup(a, kind, key) == Lookup(b, kind, key) {
        match kind {
          case SharedPropertyKind =>
          case InterfaceKind =>
          case ObjectKind =>
          case LinkKind =>
          case ActionKind =>
        }
      }
    }
  }

  /** The `rid` and `api_name` written inside the definition stored under `key`. */
  function Head(reg: Registry, kind: Kind, key: string): (string, string)
    requires key in Keys(reg, kind)
  {
    match kind
    case SharedPropertyKind => (reg.sharedProperties[key].rid, reg.sharedProperties[key].apiName)
    case InterfaceKind => (reg.interfaces[key].rid, reg.interfaces[key].apiName)
    case ObjectKind => (reg.objects[key].entity.rid, reg.objects[key].entity.apiName)
    case LinkKind => (reg.links[key].entity.rid, reg.links[key].entity.apiName)
    case ActionKind => (reg.actions[key].rid, reg.actions[key].apiName)
  }

  /** An object type or a link type, named by kind and key. */
  datatype Owner = Owner(kind: Kind, rid: string)

  predicate IsOwner(reg: Registry, o: Owner) {
    || (o.kind.ObjectKind? && o.rid in reg.objects)
    || (o.kind.LinkKind? && o.rid in reg.links)
  }

  function Owners(reg: Registry): (owners: set<Owner>)
    ensures forall o :: o in owners <==> IsOwner(reg, o)
  {
    (set rid | rid in reg.objects :: Owner(ObjectKind, rid)) +
    (set rid | rid in reg.links :: Owner(LinkKind, rid))
  }

  function EntityOf(reg: Registry, o: Owner): Entity
    requires IsOwner(reg, o)
  {
    if o.kind.ObjectKind? then reg.objects[o.rid].entity else reg.links[o.rid].entity
  }
}
