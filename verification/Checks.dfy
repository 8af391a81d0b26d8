/** The checkers without a search: one set of findings per module of onto_platform/registry/checks. */
module Checks {
  import opened Wrappers
  import opened Ontology
  import opened Formats
  import opened WellFormedness
  import opened Findings

  // ----- structural.py -----

  predicate BadRid(reg: Registry, site: Site) {
    match site
    case Site(kind, rid, None) => rid in Keys(reg, kind) && !IsRid(Head(reg, kind, rid).0, RidPrefix(kind))
    case Site(kind, rid, Some(k)) =>
      var o := Owner(kind, rid);
      IsOwner(reg, o) && k in EntityOf(reg, o).properties && !IsRid(EntityOf(reg, o).properties[k].rid, "prop")
  }

  predicate BadApiName(reg: Registry, site: Site) {
    match site
    case Site(kind, rid, None) =>
      rid in Keys(reg, kind) && Head(reg, kind, rid).1 != "" && !IsApiName(Head(reg, kind, rid).1)
    case Site(kind, rid, Some(k)) =>
      var o := Owner(kind, rid);
      && IsOwner(reg, o) && k in EntityOf(reg, o).properties
      && EntityOf(reg, o).properties[k].apiName != "" && !IsApiName(EntityOf(reg, o).properties[k].apiName)
  }

  function CheckHeads(reg: Registry, kind: Kind): (r: set<Finding>)
    ensures forall f | f in r :: (f.RidFormat? || f.ApiNameFormat?) && f.site.kind == kind && f.site.property.None?
    ensures forall s: Site | s.kind == kind && s.property.None? :: RidFormat(s) in r <==> BadRid(reg, s)
    ensures forall s: Site | s.kind == kind && s.property.None? :: ApiNameFormat(s) in r <==> BadApiName(reg, s)
  {
    (set key | key in Keys(reg, kind) && !IsRid(Head(reg, kind, key).0, RidPrefix(kind))
       :: RidFormat(Site(kind, key, None))) +
    (set key | key in Keys(reg, kind) && Head(reg, kind, key).1 != "" && !IsApiName(Head(reg, kind, key).1)
       :: ApiNameFormat(Site(kind, key, None)))
  }

  function CheckPropertyHeads(reg: Registry): (r: set<Finding>)
    ensures forall f | f in r :: (f.RidFormat? || f.ApiNameFormat?) && f.site.property.Some?
    ensures forall s: Site | s.property.Some? :: RidFormat(s) in r <==> BadRid(reg, s)
    ensures forall s: Site | s.property.Some? :: ApiNameFormat(s) in r <==> BadApiName(reg, s)
  {
    (set o, k | o in Owners(reg) && k in EntityOf(reg, o).properties && !IsRid(EntityOf(reg, o).properties[k].rid, "prop")
       :: RidFormat(Site(o.kind, o.rid, Some(k)))) +
    (set o, k | o in Owners(reg) && k in EntityOf(reg, o).properties &&
                EntityOf(reg, o).properties[k].apiName != "" && !IsApiName(EntityOf(reg, o).properties[k].apiName)
       :: ApiNameFormat(Site(o.kind, o.rid, Some(k))))
  }

  /** Exactly the definitions and properties with a bad rid or api name are reported. */
  function CheckStructural(reg: Registry): (r: set<Finding>)
    ensures forall f | f in r :: f.RidFormat? || f.ApiNameFormat?
    ensures forall s :: RidFormat(s) in r <==> BadRid(reg, s)
    ensures forall s :: ApiNameFormat(s) in r <==> BadApiName(reg, s)
  {
    CheckHeads(reg, SharedPropertyKind) + CheckHeads(reg, InterfaceKind) + CheckHeads(reg, ObjectKind) +
    CheckHeads(reg, LinkKind) + CheckHeads(reg, ActionKind) + CheckPropertyHeads(reg)
  }

  lemma StructuralFindings(reg: Registry)
    ensures CheckStructural(reg) == {} <==> StructureOk(reg)
  {
    if StructureOk(reg) {
      forall s: Site ensures !BadRid(reg, s) && !BadApiName(reg, s) {}
      forall f ensures f !in CheckStructural(reg) {}
    }
    if CheckStructural(reg) == {} {
      forall kind, key | key in Keys(reg, kind)
        ensures NamesOk(Head(reg, kind, key).0, Head(reg, kind, key).1, RidPrefix(kind))
      {
        var s := Site(kind, key, None);
        assert RidFormat(s) !in CheckStructural(reg) && ApiNameFormat(s) !in CheckStructural(reg);
      }
      forall o, k | IsOwner(reg, o) && k in EntityOf(reg, o).properties
        ensures NamesOk(EntityOf(reg, o).properties[k].rid, EntityOf(reg, o).properties[k].apiName, "prop")
      {
        var s := Site(o.kind, o.rid, Some(k));
        assert RidFormat(s) !in CheckStructural(reg) && ApiNameFormat(s) !in CheckStructural(reg);
      }
    }
  }

  /** The definition stored under `key` is not reported iff its rid is spelled with `head` and its api name is allowed. */
  ghost predicate ReportedUnless(reg: Registry, kind: Kind, key: string, rid: string, apiName: string, head: string) {
    var site := Site(kind, key, None);
    && (RidFormat(site) in CheckStructural(reg) <==> !Spelled(rid, head))
    && (ApiNameFormat(site) in CheckStructural(reg) <==> apiName != "" && !IsApiName(apiName))
  }

  lemma DefinitionReported(reg: Registry, kind: Kind, key: string, head: string)
    requires key in Keys(reg, kind) && head == "ri." + RidPrefix(kind) + "."
    ensures ReportedUnless(reg, kind, key, Head(reg, kind, key).0, Head(reg, kind, key).1, head)
  {
    RidIsSpelled(Head(reg, kind, key).0, RidPrefix(kind));
    assert BadRid(reg, Site(kind, key, None)) <==> !IsRid(Head(reg, kind, key).0, RidPrefix(kind));
  }

  /** Exactly which definitions are reported, kind by kind, each by the prefix of its own kind. */
  lemma DefinitionsByKind(reg: Registry)
    ensures forall key | key in reg.sharedProperties ::
              ReportedUnless(reg, SharedPropertyKind, key, reg.sharedProperties[key].rid, reg.sharedProperties[key].apiName, "ri.shprop.")
    ensures forall key | key in reg.interfaces ::
              ReportedUnless(reg, InterfaceKind, key, reg.interfaces[key].rid, reg.interfaces[key].apiName, "ri.iface.")
    ensures forall key | key in reg.objects ::
              ReportedUnless(reg, ObjectKind, key, reg.objects[key].entity.rid, reg.objects[key].entity.apiName, "ri.obj.")
    ensures forall key | key in reg.links ::
              ReportedUnless(reg, LinkKind, key, reg.links[key].entity.rid, reg.links[key].entity.apiName, "ri.link.")
    ensures forall key | key in reg.actions ::
              ReportedUnless(reg, ActionKind, key, reg.actions[key].rid, reg.actions[key].apiName, "ri.action.")
  {
    forall key | key in reg.sharedProperties
      ensures ReportedUnless(reg, SharedPropertyKind, key, reg.sharedProperties[key].rid, reg.sharedProperties[key].apiName, "ri.shprop.")
    {
      DefinitionReported(reg, SharedPropertyKind, key, "ri.shprop.");
    }
    forall key | key in reg.interfaces
      ensures ReportedUnless(reg, InterfaceKind, key, reg.interfaces[key].rid, reg.interfaces[key].apiName, "ri.iface.")
    {
      DefinitionReported(reg, InterfaceKind, key, "ri.iface.");
    }
    forall key | key in reg.objects
      ensures ReportedUnless(reg, ObjectKind, key, reg.objects[key].entity.rid, reg.objects[key].entity.apiName, "ri.obj.")
    {
      DefinitionReported(reg, ObjectKind, key, "ri.obj.");
    }
    forall key | key in reg.links
      ensures ReportedUnless(reg, LinkKind, key, reg.links[key].entity.rid, reg.links[key].entity.apiName, "ri.link.")
    {
      DefinitionReported(reg, LinkKind, key, "ri.link.");
    }
    forall key | key in reg.actions
      ensures ReportedUnless(reg, ActionKind, key, reg.actions[key].rid, reg.actions[key].apiName, "ri.action.")
    {
      DefinitionReported(reg, ActionKind, key, "ri.action.");
    }
  }

  /** Exactly which properties of object and link types are reported. */
  lemma PropertiesReported(reg: Registry, o: Owner, k: string)
    requires IsOwner(reg, o) && k in EntityOf(reg, o).properties
    ensures var p, site := EntityOf(reg, o).properties[k], Site(o.kind, o.rid, Some(k));
            && (RidFormat(site) in CheckStructural(reg) <==> !Spelled(p.rid, "ri.prop."))
            && (ApiNameFormat(site) in CheckStructural(reg) <==> p.apiName != "" && !IsApiName(p.apiName))
  {
    var p, site := EntityOf(reg, o).properties[k], Site(o.kind, o.rid, Some(k));
    RidIsSpelled(p.rid, "prop");
    assert "ri." + "prop" + "." == "ri.prop.";
    assert BadRid(reg, site) <==> !IsRid(p.rid, "prop");
  }

  /** No rid suits two kinds, nor a definition and a property: the six prefixes start with six letters. */
  lemma OnePrefix(rid: string, head: string, other: string)
    requires |head| > 3 && |other| > 3 && Spelled(rid, head) && Spelled(rid, other)
    ensures head[3] == other[3]
  {
    var uuid :| IsUuid(uuid) && (rid == head + uuid || rid == head + uuid + "\n");
    assert rid[3] == head[3];
    var uuid' :| IsUuid(uuid') && (rid == other + uuid' || rid == other + uuid' + "\n");
    assert rid[3] == other[3];
  }

  // ----- refs.py -----

  /** `rid` is not empty and none of the pool's keys. */
  predicate Missing(rid: string, pool: set<string>) {
    rid != "" && rid !in pool
  }

  function CheckImplements(reg: Registry): (r: set<Finding>)
    ensures forall f | f in r :: f.RefNotFound? && f.edge.Implements?
    ensures forall e: Edge | e.Implements? :: RefNotFound(e) in r <==> Dangling(reg, e)
  {
    set o, t | o in Owners(reg) && t in EntityOf(reg, o).implements && Missing(t, reg.interfaces.Keys)
      :: RefNotFound(Implements(o, t))
  }

  function LocalRids(ent: Entity): set<string> {
    set k | k in ent.properties :: ent.properties[k].rid
  }

  predicate BadLocalKey(reg: Registry, o: Owner, key: string) {
    IsOwner(reg, o) && key in EntityOf(reg, o).primaryKeys && key != "" && !IsLocalProperty(EntityOf(reg, o), key)
  }

  function CheckPrimaryKeys(reg: Registry): (r: set<Finding>)
    ensures forall f | f in r :: f.LocalKeyNotFound?
    ensures forall o, key :: LocalKeyNotFound(o, key) in r <==> BadLocalKey(reg, o, key)
  {
    set o, key | o in Owners(reg) && key in EntityOf(reg, o).primaryKeys && Missing(key, LocalRids(EntityOf(reg, o)))
      :: LocalKeyNotFound(o, key)
  }

  function CheckInherits(reg: Registry): (r: set<Finding>)
    ensures forall f | f in r :: f.RefNotFound? && f.edge.Inherits?
    ensures forall e: Edge | e.Inherits? :: RefNotFound(e) in r <==> Dangling(reg, e)
  {
    set o, k | o in Owners(reg) && k in EntityOf(reg, o).properties &&
               Missing(EntityOf(reg, o).properties[k].inheritFrom, reg.sharedProperties.Keys)
      :: RefNotFound(Inherits(o, k, EntityOf(reg, o).properties[k].inheritFrom))
  }

  function CheckLinkSources(reg: Registry): (r: set<Finding>)
    ensures forall f | f in r :: f.RefNotFound? && (f.edge.LinkSourceObject? || f.edge.LinkSourceInterface?)
    ensures forall e: Edge | e.LinkSourceObject? || e.LinkSourceInterface? :: RefNotFound(e) in r <==> Dangling(reg, e)
  {
    (set r | r in reg.links && Missing(reg.links[r].sourceObject, reg.objects.Keys)
       :: RefNotFound(LinkSourceObject(r, reg.links[r].sourceObject))) +
    (set r | r in reg.links && Missing(reg.links[r].sourceInterface, reg.interfaces.Keys)
       :: RefNotFound(LinkSourceInterface(r, reg.links[r].sourceInterface)))
  }

  function CheckLinkTargets(reg: Registry): (r: set<Finding>)
    ensures forall f | f in r :: f.RefNotFound? && (f.edge.LinkTargetObject? || f.edge.LinkTargetInterface?)
    ensures forall e: Edge | e.LinkTargetObject? || e.LinkTargetInterface? :: RefNotFound(e) in r <==> Dangling(reg, e)
  {
    (set r | r in reg.links && Missing(reg.links[r].targetObject, reg.objects.Keys)
       :: RefNotFound(LinkTargetObject(r, reg.links[r].targetObject))) +
    (set r | r in reg.links && Missing(reg.links[r].targetInterface, reg.interfaces.Keys)
       :: RefNotFound(LinkTargetInterface(r, reg.links[r].targetInterface)))
  }

  function CheckInterfaceRefs(reg: Registry): (r: set<Finding>)
    ensures forall f | f in r :: f.RefNotFound? && (f.edge.ExtendsInterface? || f.edge.RequiresShared?)
    ensures forall e: Edge | e.ExtendsInterface? || e.RequiresShared? :: RefNotFound(e) in r <==> Dangling(reg, e)
  {
    (set r, t | r in reg.interfaces && t in reg.interfaces[r].parents && Missing(t, reg.interfaces.Keys)
       :: RefNotFound(ExtendsInterface(r, t))) +
    (set r, t | r in reg.interfaces && t in reg.interfaces[r].requiredShared && Missing(t, reg.sharedProperties.Keys)
       :: RefNotFound(RequiresShared(r, t)))
  }

  function CheckParameterObjects(reg: Registry): (r: set<Finding>)
    ensures forall f | f in r :: f.RefNotFound? && f.edge.ParameterObject?
    ensures forall e: Edge | e.ParameterObject? :: RefNotFound(e) in r <==> Dangling(reg, e)
  {
    set r, i | r in reg.actions && 0 <= i < |reg.actions[r].parameters| &&
               Missing(reg.actions[r].parameters[i].objectRid, reg.objects.Keys)
      :: RefNotFound(ParameterObject(r, i, reg.actions[r].parameters[i].objectRid))
  }

  function CheckParameterLinks(reg: Registry): (r: set<Finding>)
    ensures forall f | f in r :: f.RefNotFound? && f.edge.ParameterLink?
    ensures forall e: Edge | e.ParameterLink? :: RefNotFound(e) in r <==> Dangling(reg, e)
  {
    set r, i | r in reg.actions && 0 <= i < |reg.actions[r].parameters| &&
               Missing(reg.actions[r].parameters[i].linkRid, reg.links.Keys)
      :: RefNotFound(ParameterLink(r, i, reg.actions[r].parameters[i].linkRid))
  }

  function CheckParameterInterfaces(reg: Registry): (r: set<Finding>)
    ensures forall f | f in r :: f.RefNotFound? && f.edge.ParameterInterface?
    ensures forall e: Edge | e.ParameterInterface? :: RefNotFound(e) in r <==> Dangling(reg, e)
  {
    set r, i | r in reg.actions && 0 <= i < |reg.actions[r].parameters| &&
               Missing(reg.actions[r].parameters[i].interfaceRid, reg.interfaces.Keys)
      :: RefNotFound(ParameterInterface(r, i, reg.actions[r].parameters[i].interfaceRid))
  }

  predicate IsActionEdge(e: Edge) {
    e.ParameterObject? || e.ParameterLink? || e.ParameterInterface?
  }

  function CheckActionRefs(reg: Registry): (r: set<Finding>)
    ensures forall f | f in r :: f.RefNotFound? && IsActionEdge(f.edge)
    ensures forall e: Edge | IsActionEdge(e) :: RefNotFound(e) in r <==> Dangling(reg, e)
  {
    CheckParameterObjects(reg) + CheckParameterLinks(reg) + CheckParameterInterfaces(reg)
  }

  predicate IsEntityEdge(e: Edge) {
    !IsActionEdge(e) && !e.ExtendsInterface? && !e.RequiresShared?
  }

  function CheckEntityRefs(reg: Registry): (r: set<Finding>)
    ensures forall f | f in r :: f.LocalKeyNotFound? || (f.RefNotFound? && IsEntityEdge(f.edge))
    ensures forall e: Edge | IsEntityEdge(e) :: RefNotFound(e) in r <==> Dangling(reg, e)
    ensures forall o, key :: LocalKeyNotFound(o, key) in r <==> BadLocalKey(reg, o, key)
  {
    CheckImplements(reg) + CheckPrimaryKeys(reg) + CheckInherits(reg) + CheckLinkSources(reg) + CheckLinkTargets(reg)
  }

  /** The scan reports exactly the dangling edges of the reference relation and the bad primary keys. */
  function CheckRefs(reg: Registry): (r: set<Finding>)
    ensures forall f | f in r :: f.RefNotFound? || f.LocalKeyNotFound?
    ensures forall e :: RefNotFound(e) in r <==> Dangling(reg, e)
    ensures forall o, key :: LocalKeyNotFound(o, key) in r <==> BadLocalKey(reg, o, key)
  {
    CheckEntityRefs(reg) + CheckInterfaceRefs(reg) + CheckActionRefs(reg)
  }

  lemma NoReferenceFindings(reg: Registry)
    ensures CheckRefs(reg) == {} <==> NoDangling(reg) && LocalKeysOk(reg)
  {
    if CheckRefs(reg) != {} {
      var f :| f in CheckRefs(reg);
      match f
      case RefNotFound(e) => assert Dangling(reg, e);
      case LocalKeyNotFound(o, key) => assert BadLocalKey(reg, o, key);
    } else {
      forall e | HasEdge(reg, e) ensures !Dangling(reg, e) {
        assert RefNotFound(e) !in CheckRefs(reg);
      }
      forall o, i | IsOwner(reg, o) && 0 <= i < |EntityOf(reg, o).primaryKeys|
        ensures var key := EntityOf(reg, o).primaryKeys[i]; key == "" || IsLocalProperty(EntityOf(reg, o), key)
      {
        assert LocalKeyNotFound(o, EntityOf(reg, o).primaryKeys[i]) !in CheckRefs(reg);
      }
    }
  }

  // ----- property_backing.py -----

  predicate IsProperty(reg: Registry, s: Site) {
    && s.property.Some?
    && IsOwner(reg, Owner(s.kind, s.rid))
    && s.property.value in EntityOf(reg, Owner(s.kind, s.rid)).properties
  }

  function PropertyAt(reg: Registry, s: Site): Property
    requires IsProperty(reg, s)
  {
    EntityOf(reg, Owner(s.kind, s.rid)).properties[s.property.value]
  }

  function PropertySites(reg: Registry): (r: set<Site>)
    ensures forall s :: s in r <==> IsProperty(reg, s)
  {
    set o, k | o in Owners(reg) && k in EntityOf(reg, o).properties :: Site(o.kind, o.rid, Some(k))
  }

  /** Where a property takes its values from. */
  function Backings(p: Property): seq<string> {
    (if p.physicalColumn != "" then [p.physicalColumn] else []) +
    (if p.virtualExpression != "" then [p.virtualExpression] else [])
  }

  /** One property: at most one finding about its backing and one about the type it inherits. */
  function CheckOne(p: Property, site: Site, shared: map<string, SharedProperty>): (r: set<Finding>)
    ensures r <= {BackingMissing(site), BackingBothSet(site), InheritedDataTypeMismatch(site)}
    ensures BackingMissing(site) in r <==> |Backings(p)| == 0
    ensures BackingBothSet(site) in r <==> |Backings(p)| == 2
    ensures InheritedDataTypeMismatch(site) in r <==>
            !BackingOk(p.(physicalColumn := "c", virtualExpression := ""), shared)
    ensures r == {} <==> BackingOk(p, shared)
  {
    (if p.physicalColumn == "" && p.virtualExpression == "" then {BackingMissing(site)}
     else if p.physicalColumn != "" && p.virtualExpression != "" then {BackingBothSet(site)}
     else {}) +
    (if p.inheritFrom != "" && p.inheritFrom in shared && p.dataType != shared[p.inheritFrom].dataType
     then {InheritedDataTypeMismatch(site)} else {})
  }

  /** Reports exactly the properties that break the backing rule, each at its own site. */
  function CheckPropertyBacking(reg: Registry): (r: set<Finding>)
    ensures forall f | f in r :: (f.BackingMissing? || f.BackingBothSet? || f.InheritedDataTypeMismatch?)
                                 && IsProperty(reg, f.site) && f in CheckOne(PropertyAt(reg, f.site), f.site, reg.sharedProperties)
    ensures forall s | IsProperty(reg, s) :: CheckOne(PropertyAt(reg, s), s, reg.sharedProperties) <= r
  {
    set s, f | s in PropertySites(reg) && f in CheckOne(PropertyAt(reg, s), s, reg.sharedProperties) :: f
  }

  lemma BackingFindings(reg: Registry)
    ensures CheckPropertyBacking(reg) == {} <==> BackingsOk(reg)
    ensures forall s :: (exists f | f in CheckPropertyBacking(reg) :: f.site == s) <==>
              IsProperty(reg, s) && !BackingOk(PropertyAt(reg, s), reg.sharedProperties)
  {
    forall s | IsProperty(reg, s) && !BackingOk(PropertyAt(reg, s), reg.sharedProperties)
      ensures exists f | f in CheckPropertyBacking(reg) :: f.site == s
    {
      assert CheckOne(PropertyAt(reg, s), s, reg.sharedProperties) != {};
      var f :| f in CheckOne(PropertyAt(reg, s), s, reg.sharedProperties);
      assert f in CheckPropertyBacking(reg);
    }
    if CheckPropertyBacking(reg) == {} {
      forall o, k | IsOwner(reg, o) && k in EntityOf(reg, o).properties
        ensures BackingOk(EntityOf(reg, o).properties[k], reg.sharedProperties)
      {
        var s := Site(o.kind, o.rid, Some(k));
        assert IsProperty(reg, s) && PropertyAt(reg, s) == EntityOf(reg, o).properties[k];
      }
    }
  }

  // ----- asset_mapping.py -----

  predicate IsEmptyMapping(am: AssetMapping) {
    !(am.readConnectionId != "" || am.readAssetPath != "" || am.writebackEnabled)
  }

  function CheckAssetMapping(reg: Registry, conns: set<string>): (r: set<Finding>)
    ensures forall f | f in r :: f.MappingEmpty? || f.MappingConnectionNotFound?
    ensures forall o :: MappingEmpty(o) in r <==>
              IsOwner(reg, o) && var am := EntityOf(reg, o).mapping;
              am.readConnectionId == "" == am.readAssetPath && !am.writebackEnabled
    ensures forall o, c :: MappingConnectionNotFound(o, c) in r <==>
              IsOwner(reg, o) && c == EntityOf(reg, o).mapping.readConnectionId && c != "" && c !in conns
  {
    (set o | o in Owners(reg) && IsEmptyMapping(EntityOf(reg, o).mapping) :: MappingEmpty(o)) +
    (set o | o in Owners(reg) && !IsEmptyMapping(EntityOf(reg, o).mapping) &&
             Missing(EntityOf(reg, o).mapping.readConnectionId, conns)
       :: MappingConnectionNotFound(o, EntityOf(reg, o).mapping.readConnectionId))
  }

  /** The empty-mapping warning never hides a missing connection. */
  lemma MappingFindings(reg: Registry, conns: set<string>)
    ensures HasErrors(CheckAssetMapping(reg, conns)) <==> !ConnectionsOk(reg, conns)
  {
    if !ConnectionsOk(reg, conns) {
      var o :| IsOwner(reg, o) && !ConnectionOk(EntityOf(reg, o).mapping, conns);
      assert MappingConnectionNotFound(o, EntityOf(reg, o).mapping.readConnectionId) in CheckAssetMapping(reg, conns);
    }
  }

  // ----- cross_property.py -----

  predicate Unresolved(ent: Entity, i: nat, name: string) {
    && i < |ent.rules| && ent.rules[i].crossProperty.Some?
    && name in References(ent.rules[i].crossProperty.value, 0) && !IsPropertyName(ent, name)
  }

  function ApiNames(ent: Entity): set<string> {
    set k | k in ent.properties && ent.properties[k].apiName != "" :: ent.properties[k].apiName
  }

  function CheckCrossProperty(reg: Registry): (r: set<Finding>)
    ensures forall f | f in r :: f.CrossPropertyUnresolved?
    ensures forall o, i, name :: CrossPropertyUnresolved(o, i, name) in r <==>
              IsOwner(reg, o) && Unresolved(EntityOf(reg, o), i, name)
  {
    set o, i, name | o in Owners(reg) && 0 <= i < |EntityOf(reg, o).rules| &&
                     EntityOf(reg, o).rules[i].crossProperty.Some? &&
                     name in References(EntityOf(reg, o).rules[i].crossProperty.value, 0) &&
                     name !in ApiNames(EntityOf(reg, o))
      :: CrossPropertyUnresolved(o, i, name)
  }

  lemma CrossPropertyFindings(reg: Registry)
    ensures CheckCrossProperty(reg) == {} <==> CrossPropertiesOk(reg)
  {
    if CheckCrossProperty(reg) == {} {
      forall o | IsOwner(reg, o) ensures RulesOk(EntityOf(reg, o)) {
        var ent := EntityOf(reg, o);
        forall i, name | 0 <= i < |ent.rules| && ent.rules[i].crossProperty.Some? &&
                         name in References(ent.rules[i].crossProperty.value, 0)
          ensures IsPropertyName(ent, name)
        {
          assert CrossPropertyUnresolved(o, i, name) !in CheckCrossProperty(reg);
        }
      }
    } else {
      var f :| f in CheckCrossProperty(reg);
      assert Unresolved(EntityOf(reg, f.owner), f.rule, f.reference);
    }
  }
}
