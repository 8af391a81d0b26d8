/** What a checker reports (onto_platform/registry/validator.py). */
module Findings {
  import opened Wrappers
  import opened Ontology
  import opened WellFormedness

  /** A definition, or one property of an entity. */
  datatype Site = Site(kind: Kind, rid: string, property: Option<string>)

  datatype Finding =
    | RidFormat(site: Site)
    | ApiNameFormat(site: Site)
    | RefNotFound(edge: Edge)
    | LocalKeyNotFound(owner: Owner, key: string)
    | CategoryMismatch(rid: string)
    | CategoryInvalid(rid: string)
    | ExtendsCategoryMismatch(rid: string, parent: string)
    | ExtendsCycle(cycle: seq<string>)
    | BackingMissing(site: Site)
    | BackingBothSet(site: Site)
    | InheritedDataTypeMismatch(site: Site)
    | MappingEmpty(owner: Owner)
    | MappingConnectionNotFound(owner: Owner, connection: string)
    | CrossPropertyUnresolved(owner: Owner, rule: nat, reference: string)
  {
    /** Only the empty asset mapping is a mere warning. */
    predicate IsError() { !MappingEmpty? }
  }

  predicate HasErrors(findings: set<Finding>) {
    exists f | f in findings :: f.IsError()
  }
}
