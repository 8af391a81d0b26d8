/** The interface checker and `validate`, which runs all six checkers (onto_platform/registry/validator.py). */
module Validator {
  import opened Ontology
  import opened WellFormedness
  import opened Findings
  import opened Checks
  import opened CycleSearch

  /** What rules 1 and 2 of the interface check report. */
  predicate CategoryDefect(g: map<string, Interface>, f: Finding) {
    match f
    case CategoryMismatch(r) =>
      && r in g && !g[r].category.InvalidCategory? && !ShapeOk(g[r])
    case CategoryInvalid(r) => r in g && g[r].category.InvalidCategory?
    case ExtendsCategoryMismatch(r, p) =>
      r in g && p in g[r].parents && p in g && g[p].category != g[r].category
    case _ => false
  }

  /** The finding is about the interface stored under `r`. */
  predicate About(f: Finding, r: string) {
    (f.CategoryMismatch? || f.CategoryInvalid? || f.ExtendsCategoryMismatch?) && f.rid == r
  }

  method CheckOneInterface(g: map<string, Interface>, rid: string) returns (findings: set<Finding>)
    requires rid in g
    ensures forall f :: f in findings <==> About(f, rid) && CategoryDefect(g, f)
  {
    findings := {};
    var iface := g[rid];
    match iface.category {
      case ObjectInterface =>
        if iface.objectConstraint.Some? { findings := findings + {CategoryMismatch(rid)}; }
      case LinkInterface =>
        if iface.linkRequirements != [] { findings := findings + {CategoryMismatch(rid)}; }
      case InvalidCategory =>
        findings := findings + {CategoryInvalid(rid)};
    }
    for i := 0 to |iface.parents|
      invariant forall f :: f in findings <==>
        About(f, rid) && CategoryDefect(g, f) && (f.ExtendsCategoryMismatch? ==> f.parent in iface.parents[..i])
    {
      var parent := iface.parents[i];
      if parent in g && g[parent].category != iface.category {
        findings := findings + {ExtendsCategoryMismatch(rid, parent)};
      }
    }
  }

  lemma NoCategoryDefect(g: map<string, Interface>)
    ensures (forall f :: !CategoryDefect(g, f)) <==> CategoriesOk(g)
  {
    if forall f :: !CategoryDefect(g, f) {
      forall r | r in g ensures ShapeOk(g[r]) {
        assert !CategoryDefect(g, CategoryMismatch(r)) && !CategoryDefect(g, CategoryInvalid(r));
      }
      forall a, b | Extends(g, a, b) ensures g[a].category == g[b].category {
        assert !CategoryDefect(g, ExtendsCategoryMismatch(a, b));
      }
    }
    if CategoriesOk(g) {
      forall f ensures !CategoryDefect(g, f) {
        if CategoryDefect(g, f) && f.ExtendsCategoryMismatch? {
          assert Extends(g, f.rid, f.parent);
        }
      }
    }
  }

  /** Rules 1 and 2 for every interface, in any order. */
  method CheckCategories(g: map<string, Interface>) returns (findings: set<Finding>)
    ensures forall f: Finding :: f in findings <==> CategoryDefect(g, f)
  {
    findings := {};
    var todo := g.Keys;
    while todo != {}
      invariant todo <= g.Keys
      invariant forall f: Finding :: f in findings <==> CategoryDefect(g, f) && f.rid in g.Keys - todo
    {
      var rid :| rid in todo;
      var fs := CheckOneInterface(g, rid);
      findings := findings + fs;
      todo := todo - {rid};
    }
  }

  lemma BothKinds(g: map<string, Interface>, defects: set<Finding>, cycles: set<Finding>)
    requires forall f: Finding :: f in defects <==> CategoryDefect(g, f)
    requires (defects == {} <==> CategoriesOk(g)) && (cycles == {} <==> Acyclic(g))
    requires forall f | f in cycles :: f.ExtendsCycle?
    ensures forall f: Finding | !f.ExtendsCycle? :: f in defects + cycles <==> CategoryDefect(g, f)
    ensures forall f | f in defects + cycles && f.ExtendsCycle? :: f in cycles
    ensures (exists f | f in defects + cycles :: f.ExtendsCycle?) <==> !Acyclic(g)
    ensures defects + cycles == {} <==> CategoriesOk(g) && Acyclic(g)
    ensures forall f | f in defects + cycles :: f.IsError()
  {
    assert forall f | f in cycles :: f in defects + cycles;
  }

  /** Rules 1 and 2 exactly; rule 3 reports genuine cycles and leaves none unreported. */
  method CheckInterfaceCategory(reg: Registry) returns (findings: set<Finding>)
    ensures forall f: Finding | !f.ExtendsCycle? :: f in findings <==> CategoryDefect(reg.interfaces, f)
    ensures forall f | f in findings && f.ExtendsCycle? :: IsCycleFinding(reg.interfaces, f)
    ensures (exists f | f in findings :: f.ExtendsCycle?) <==> !Acyclic(reg.interfaces)
    ensures CyclesReported(reg.interfaces, findings)
    ensures findings == {} <==> CategoriesOk(reg.interfaces) && Acyclic(reg.interfaces)
    ensures forall f | f in findings :: f.IsError()
  {
    var g := reg.interfaces;
    var defects := CheckCategories(g);
    assert defects == {} <==> CategoriesOk(g) by {
      NoCategoryDefect(g);
    }
    var cycles, color, order := FindCycles(g);
    findings := defects + cycles;
    BothKinds(g, defects, cycles);
    StillReported(g, cycles, findings);
  }

  /** What the five checkers without a search report. */
  function PureFindings(reg: Registry, conns: set<string>): set<Finding> {
    CheckStructural(reg) + CheckRefs(reg) + CheckPropertyBacking(reg) + CheckAssetMapping(reg, conns) + CheckCrossProperty(reg)
  }

  lemma ErrorsOfUnion(a: set<Finding>, b: set<Finding>)
    ensures HasErrors(a + b) <==> HasErrors(a) || HasErrors(b)
  {
    if HasErrors(a) { var f :| f in a && f.IsError(); assert f in a + b; }
    if HasErrors(b) { var f :| f in b && f.IsError(); assert f in a + b; }
  }

  lemma ErrorsOfFive(s: set<Finding>, r: set<Finding>, b: set<Finding>, m: set<Finding>, c: set<Finding>)
    ensures HasErrors(s + r + b + m + c) <==>
            HasErrors(s) || HasErrors(r) || HasErrors(b) || HasErrors(m) || HasErrors(c)
  {
    ErrorsOfUnion(s, r);
    ErrorsOfUnion(s + r, b);
    ErrorsOfUnion(s + r + b, m);
    ErrorsOfUnion(s + r + b + m, c);
  }

  lemma OnlyErrors(a: set<Finding>)
    requires forall f | f in a :: f.IsError()
    ensures HasErrors(a) <==> a != {}
  {
    if a != {} { var f :| f in a; }
  }

  lemma StructuralErrors(reg: Registry)
    ensures HasErrors(CheckStructural(reg)) <==> !StructureOk(reg)
  {
    StructuralFindings(reg);
    OnlyErrors(CheckStructural(reg));
  }

  lemma ReferenceErrors(reg: Registry)
    ensures HasErrors(CheckRefs(reg)) <==> !(NoDangling(reg) && LocalKeysOk(reg))
  {
    NoReferenceFindings(reg);
    OnlyErrors(CheckRefs(reg));
  }

  lemma BackingErrors(reg: Registry)
    ensures HasErrors(CheckPropertyBacking(reg)) <==> !BackingsOk(reg)
  {
    BackingFindings(reg);
    OnlyErrors(CheckPropertyBacking(reg));
  }

  lemma CrossPropertyErrors(reg: Registry)
    ensures HasErrors(CheckCrossProperty(reg)) <==> !CrossPropertiesOk(reg)
  {
    CrossPropertyFindings(reg);
    OnlyErrors(CheckCrossProperty(reg));
  }

  lemma PureErrors(reg: Registry, conns: set<string>)
    ensures HasErrors(PureFindings(reg, conns)) <==>
            !(StructureOk(reg) && NoDangling(reg) && LocalKeysOk(reg) && BackingsOk(reg) &&
              CrossPropertiesOk(reg) && ConnectionsOk(reg, conns))
  {
    StructuralErrors(reg);
    ReferenceErrors(reg);
    BackingErrors(reg);
    MappingFindings(reg, conns);
    CrossPropertyErrors(reg);
    ErrorsOfFive(CheckStructural(reg), CheckRefs(reg), CheckPropertyBacking(reg),
                 CheckAssetMapping(reg, conns), CheckCrossProperty(reg));
  }

  lemma NoPureCycles(reg: Registry, conns: set<string>)
    ensures forall f | f in PureFindings(reg, conns) :: !f.ExtendsCycle?
  {
    forall f | f in PureFindings(reg, conns) ensures !f.ExtendsCycle? {
      if f in CheckStructural(reg) {
        assert f.RidFormat? || f.ApiNameFormat?;
      } else if f in CheckRefs(reg) {
        assert f.RefNotFound? || f.LocalKeyNotFound?;
      } else if f in CheckPropertyBacking(reg) {
        assert f.BackingMissing? || f.BackingBothSet? || f.InheritedDataTypeMismatch?;
      } else if f in CheckAssetMapping(reg, conns) {
        assert f.MappingEmpty? || f.MappingConnectionNotFound?;
      } else {
        assert f in CheckCrossProperty(reg);
      }
    }
  }

  lemma AllErrors(reg: Registry, conns: set<string>, interfaceFindings: set<Finding>)
    requires interfaceFindings == {} <==> CategoriesOk(reg.interfaces) && Acyclic(reg.interfaces)
    requires forall f | f in interfaceFindings :: f.IsError()
    ensures HasErrors(PureFindings(reg, conns) + interfaceFindings) <==> !Valid(reg, conns)
  {
    ErrorsOfUnion(PureFindings(reg, conns), interfaceFindings);
    OnlyErrors(interfaceFindings);
    PureErrors(reg, conns);
  }

  /** An ERROR finding is reported exactly when the registry breaks a rule. */
  method Validate(reg: Registry, conns: set<string>) returns (findings: set<Finding>)
    ensures HasErrors(findings) <==> !Valid(reg, conns)
    ensures forall f: Finding | !f.ExtendsCycle? ::
              f in findings <==> f in PureFindings(reg, conns) || CategoryDefect(reg.interfaces, f)
    ensures forall f | f in findings && f.ExtendsCycle? :: IsCycleFinding(reg.interfaces, f)
    ensures CyclesReported(reg.interfaces, findings)
  {
    var interfaceFindings := CheckInterfaceCategory(reg);
    findings := PureFindings(reg, conns) + interfaceFindings;
    StillReported(reg.interfaces, interfaceFindings, findings);
    NoPureCycles(reg, conns);
    AllErrors(reg, conns, interfaceFindings);
  }

  // ----- What a valid registry means for interface chains -----

  /** Each name in `p` is listed as a parent by the registered interface before it. */
  ghost predicate FollowsParents(g: map<string, Interface>, p: seq<string>) {
    && |p| >= 1 && p[0] in g
    && forall i, j | 0 <= i && j == i + 1 && j < |p| :: p[i] in g && p[j] in g[p[i]].parents
  }

  /**
   In a registry without errors, whatever a chain of parents leads to is registered, has the start's
   valid category and is not the start; only the empty name, which is never checked, may be unregistered.
   */
  lemma ChainsEndWell(reg: Registry, p: seq<string>)
    requires WellFormed(reg) && FollowsParents(reg.interfaces, p) && |p| >= 2
    ensures var g, last := reg.interfaces, p[|p| - 1];
            if last in g then
              g[last].category == g[p[0]].category && !g[last].category.InvalidCategory? && last != p[0]
            else
              last == ""
  {
    var g, n := reg.interfaces, |p| - 1;
    assert p[n - 1] in g && p[n] in g[p[n - 1]].parents;
    assert HasEdge(reg, ExtendsInterface(p[n - 1], p[n]));
    if p[n] in g {
      forall i, j | 0 <= i && j == i + 1 && j < |p| ensures Extends(g, p[i], p[j]) {
        if j < n {
          var next := p[j + 1];
          assert p[j] in g;
        }
      }
      WalkKeepsCategory(g, p, n);
      assert !ClosedWalk(g, p);
    }
  }
}
