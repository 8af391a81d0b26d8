/** Which sensitivity and masking a query result column gets (onto_platform/connections/masking.py). */
module Masking {
  import opened Wrappers
  import opened Ontology

  function Order(s: Sensitivity): nat {
    match s
    case Unspecified => 0
    case Public => 1
    case Internal => 2
    case Confidential => 3
    case Restricted => 4
  }

  /** The five levels, from the least to the most sensitive. */
  const LEVELS := [Unspecified, Public, Internal, Confidential, Restricted]

  lemma LevelsRise(i: nat, j: nat)
    requires i < |LEVELS| && j < |LEVELS|
    ensures Order(LEVELS[i]) <= Order(LEVELS[j]) <==> i <= j
  {}

  lemma EveryLevel(s: Sensitivity)
    ensures exists i :: 0 <= i < |LEVELS| && LEVELS[i] == s
  {
    assert s == LEVELS[0] || s == LEVELS[1] || s == LEVELS[2] || s == LEVELS[3] || s == LEVELS[4];
  }

  type Index = map<string, Property>

  /** For every column, one of its properties, and none of them is more sensitive. */
  ghost predicate IsIndex(idx: Index, seen: set<Property>) {
    && (forall p | p in seen && p.physicalColumn != "" ::
          p.physicalColumn in idx && Order(p.sensitivity) <= Order(idx[p.physicalColumn].sensitivity))
    && (forall c | c in idx :: c != "" && idx[c] in seen && idx[c].physicalColumn == c)
  }

  function AllProperties(reg: Registry): set<Property> {
    set o, k | o in Owners(reg) && k in EntityOf(reg, o).properties :: EntityOf(reg, o).properties[k]
  }

  method Consider(idx: Index, p: Property, ghost seen: set<Property>) returns (out: Index)
    requires IsIndex(idx, seen)
    ensures IsIndex(out, seen + {p})
  {
    out := idx;
    if p.physicalColumn == "" {
      return;
    }
    if p.physicalColumn !in idx || Order(p.sensitivity) > Order(idx[p.physicalColumn].sensitivity) {
      out := idx[p.physicalColumn := p];
    }
  }

  method ConsiderEntity(idx: Index, properties: map<string, Property>, ghost seen: set<Property>) returns (out: Index)
    requires IsIndex(idx, seen)
    ensures IsIndex(out, seen + properties.Values)
  {
    out := idx;
    var todo := properties.Keys;
    ghost var done: set<Property> := {};
    while todo != {}
      invariant todo <= properties.Keys
      invariant done == set k | k in properties && k !in todo :: properties[k]
      invariant IsIndex(out, seen + done)
    {
      var k :| k in todo;
      out := Consider(out, properties[k], seen + done);
      todo := todo - {k};
      assert seen + done + {properties[k]} == seen + (done + {properties[k]});
      done := done + {properties[k]};
    }
    assert done == properties.Values;
  }

  lemma SeenIsAll(reg: Registry, seen: set<Property>)
    requires seen ==
             (set r, k | r in reg.objects && k in reg.objects[r].entity.properties :: reg.objects[r].entity.properties[k]) +
             (set r, k | r in reg.links && k in reg.links[r].entity.properties :: reg.links[r].entity.properties[k])
    ensures seen == AllProperties(reg)
  {
    forall p | p in seen ensures p in AllProperties(reg) {
      if r, k :| r in reg.objects && k in reg.objects[r].entity.properties && p == reg.objects[r].entity.properties[k] {
        assert Owner(ObjectKind, r) in Owners(reg) && EntityOf(reg, Owner(ObjectKind, r)).properties[k] == p;
      } else {
        var r, k :| r in reg.links && k in reg.links[r].entity.properties && p == reg.links[r].entity.properties[k];
        assert Owner(LinkKind, r) in Owners(reg) && EntityOf(reg, Owner(LinkKind, r)).properties[k] == p;
      }
    }
  }

  /** Object types first, then link types; each map in any order. */
  method BuildPhysicalToPropertyIndex(reg: Registry) returns (idx: Index)
    ensures IsIndex(idx, AllProperties(reg))
  {
    idx := map[];
    ghost var seen: set<Property> := {};
    var todo := reg.objects.Keys;
    while todo != {}
      invariant todo <= reg.objects.Keys && IsIndex(idx, seen)
      invariant seen == set r, k | r in reg.objects && r !in todo && k in reg.objects[r].entity.properties
        :: reg.objects[r].entity.properties[k]
    {
      var r :| r in todo;
      idx := ConsiderEntity(idx, reg.objects[r].entity.properties, seen);
      seen := seen + reg.objects[r].entity.properties.Values;
      todo := todo - {r};
    }
    ghost var ofObjects := seen;
    todo := reg.links.Keys;
    while todo != {}
      invariant todo <= reg.links.Keys && IsIndex(idx, seen)
      invariant seen == ofObjects + set r, k | r in reg.links && r !in todo && k in reg.links[r].entity.properties
        :: reg.links[r].entity.properties[k]
    {
      var r :| r in todo;
      idx := ConsiderEntity(idx, reg.links[r].entity.properties, seen);
      seen := seen + reg.links[r].entity.properties.Values;
      todo := todo - {r};
    }
    SeenIsAll(reg, seen);
  }

  // ----- Projections -----

  /** A projected expression: columns at the leaves. */
  datatype Expr = Column(name: string) | Node(children: seq<Expr>)

  function SizeAll(es: seq<Expr>): nat {
    if es == [] then 0 else Size(es[0]) + SizeAll(es[1..])
  }

  function Size(e: Expr): nat {
    match e
    case Column(_) => 1
    case Node(children) => 1 + SizeAll(children)
  }

  lemma {:induction false} SizeConcat(a: seq<Expr>, b: seq<Expr>)
    ensures SizeAll(a + b) == SizeAll(a) + SizeAll(b)
  {
    if a == [] {
      assert a + b == b;
    } else {
      SizeConcat(a[1..], b);
      assert (a + b)[1..] == a[1..] + b;
    }
  }

  /** The column names below the given expressions, level by level. */
  function Sources(queue: seq<Expr>): seq<string>
    decreases SizeAll(queue)
  {
    if queue == [] then []
    else
      assert SizeAll(queue) == Size(queue[0]) + SizeAll(queue[1..]);
      match queue[0]
      case Column(name) => [name] + Sources(queue[1..])
      case Node(children) => SizeConcat(queue[1..], children); Sources(queue[1..] + children)
  }

  /** The columns among the expressions themselves. */
  function ColumnsOf(queue: seq<Expr>): seq<string> {
    if queue == [] then []
    else (if queue[0].Column? then [queue[0].name] else []) + ColumnsOf(queue[1..])
  }

  /** The expressions one level below. */
  function ChildrenOf(queue: seq<Expr>): seq<Expr> {
    if queue == [] then []
    else (if queue[0].Node? then queue[0].children else []) + ChildrenOf(queue[1..])
  }

  /** The traversal goes level by level: first the columns of this level, then what is below. */
  lemma {:induction false} SourcesByLevel(queue: seq<Expr>, below: seq<Expr>)
    ensures Sources(queue + below) == ColumnsOf(queue) + Sources(below + ChildrenOf(queue))
    decreases |queue|
  {
    if queue == [] {
      assert queue + below == below && below + [] == below;
    } else {
      var rest := queue[1..];
      assert (queue + below)[1..] == rest + below;
      match queue[0] {
        case Column(name) =>
          SourcesByLevel(rest, below);
          assert ChildrenOf(queue) == ChildrenOf(rest);
        case Node(children) =>
          SourcesByLevel(rest, below + children);
          assert rest + below + children == rest + (below + children);
          assert below + children + ChildrenOf(rest) == below + ChildrenOf(queue);
          assert ColumnsOf(queue) == ColumnsOf(rest);
      }
    }
  }

  predicate HasLeaf(e: Expr, name: string) {
    match e
    case Column(n) => n == name
    case Node(children) => exists i | 0 <= i < |children| :: HasLeaf(children[i], name)
  }

  lemma LeavesOfConcat(a: seq<Expr>, b: seq<Expr>, name: string)
    ensures (exists i | 0 <= i < |a + b| :: HasLeaf((a + b)[i], name)) <==>
            (exists i | 0 <= i < |a| :: HasLeaf(a[i], name)) || (exists i | 0 <= i < |b| :: HasLeaf(b[i], name))
  {
    if i :| 0 <= i < |a| && HasLeaf(a[i], name) {
      assert (a + b)[i] == a[i];
    }
    if i :| 0 <= i < |b| && HasLeaf(b[i], name) {
      assert (a + b)[|a| + i] == b[i];
    }
  }

  /** The traversal finds exactly the leaves of the tree. */
  lemma {:induction false} SourcesAreLeaves(queue: seq<Expr>, name: string)
    ensures name in Sources(queue) <==> exists i | 0 <= i < |queue| :: HasLeaf(queue[i], name)
    decreases SizeAll(queue)
  {
    if queue != [] {
      var rest := queue[1..];
      assert SizeAll(queue) == Size(queue[0]) + SizeAll(rest);
      assert forall i | 0 < i < |queue| :: queue[i] == rest[i - 1];
      match queue[0] {
        case Column(n) =>
          SourcesAreLeaves(rest, name);
          assert (exists i | 0 <= i < |queue| :: HasLeaf(queue[i], name)) <==>
                 HasLeaf(queue[0], name) || exists i | 0 <= i < |rest| :: HasLeaf(rest[i], name);
        case Node(children) =>
          SizeConcat(rest, children);
          SourcesAreLeaves(rest + children, name);
          LeavesOfConcat(rest, children, name);
          assert (exists i | 0 <= i < |queue| :: HasLeaf(queue[i], name)) <==>
                 HasLeaf(queue[0], name) || exists i | 0 <= i < |rest| :: HasLeaf(rest[i], name);
      }
    }
  }

  /** The first of the most sensitive properties; `None` if there is none. */
  function Highest(pts: seq<Property>): (r: Option<Property>)
    ensures r.None? <==> pts == []
    ensures r.Some? ==> r.value in pts && forall p | p in pts :: Order(p.sensitivity) <= Order(r.value.sensitivity)
  {
    if pts == [] then None
    else
      match Highest(pts[..|pts| - 1])
      case None => Some(pts[|pts| - 1])
      case Some(best) =>
        assert forall p | p in pts :: p in pts[..|pts| - 1] || p == pts[|pts| - 1];
        if Order(pts[|pts| - 1].sensitivity) > Order(best.sensitivity) then Some(pts[|pts| - 1]) else Some(best)
  }

  /** The property stands at position i, behind less sensitive ones only. */
  ghost predicate IsFirst(pts: seq<Property>, i: int, p: Property) {
    && 0 <= i < |pts| && pts[i] == p
    && forall j | 0 <= j < i :: Order(pts[j].sensitivity) < Order(p.sensitivity)
  }

  /** Of equally sensitive properties the first one wins. */
  lemma {:induction false} HighestIsFirst(pts: seq<Property>)
    ensures Highest(pts).Some? ==> exists i :: IsFirst(pts, i, Highest(pts).value)
  {
    if pts != [] {
      var n := |pts| - 1;
      HighestIsFirst(pts[..n]);
      if Highest(pts) == Highest(pts[..n]) {
        var i :| IsFirst(pts[..n], i, Highest(pts[..n]).value);
        assert IsFirst(pts, i, Highest(pts).value);
      } else {
        assert IsFirst(pts, n, pts[n]);
      }
    }
  }

  /** The properties of those names that the index knows, in order. */
  function Known(idx: Index, names: seq<string>): seq<Property> {
    if names == [] then []
    else (if names[0] in idx then [idx[names[0]]] else []) + Known(idx, names[1..])
  }

  lemma {:induction false} KnownAre(idx: Index, names: seq<string>, p: Property)
    ensures p in Known(idx, names) <==> exists n :: n in names && n in idx && idx[n] == p
  {
    if names != [] {
      KnownAre(idx, names[1..], p);
      assert forall n :: n in names <==> n == names[0] || n in names[1..];
    }
  }

  datatype ResolvedColumn = ResolvedColumn(name: string, sensitivity: Sensitivity, masking: string, isResolved: bool)

  function ResolveProjection(idx: Index, name: string, e: Expr): ResolvedColumn {
    match Highest(Known(idx, Sources([e])))
    case None => ResolvedColumn(name, Unspecified, "MASK_NONE", false)
    case Some(p) => ResolvedColumn(name, p.sensitivity, p.masking, true)
  }

  /** A property bound to a physical column that occurs in the expression. */
  ghost predicate FeedsInto(reg: Registry, p: Property, e: Expr) {
    p in AllProperties(reg) && p.physicalColumn != "" && HasLeaf(e, p.physicalColumn)
  }

  /**
   However a projection is built, it is resolved iff some property's column occurs in it, and it is
   then as sensitive as the most sensitive property of any column that occurs in it.
   */
  lemma ProjectionIsAsSensitiveAsItsSources(reg: Registry, idx: Index, name: string, e: Expr)
    requires IsIndex(idx, AllProperties(reg))
    ensures var r := ResolveProjection(idx, name, e);
            && (r.isResolved <==> exists p :: FeedsInto(reg, p, e))
            && (forall p | FeedsInto(reg, p, e) :: Order(p.sensitivity) <= Order(r.sensitivity))
            && (r.isResolved ==> exists p :: FeedsInto(reg, p, e) && p.sensitivity == r.sensitivity && p.masking == r.masking)
  {
    var known := Known(idx, Sources([e]));
    forall n ensures n in Sources([e]) <==> HasLeaf(e, n) {
      SourcesAreLeaves([e], n);
    }
    forall p | FeedsInto(reg, p, e)
      ensures exists q :: q in known && Order(p.sensitivity) <= Order(q.sensitivity)
    {
      var q := idx[p.physicalColumn];
      KnownAre(idx, Sources([e]), q);
      assert q in known;
    }
    if Highest(known).Some? {
      var best := Highest(known).value;
      KnownAre(idx, Sources([e]), best);
      assert FeedsInto(reg, best, e);
    }
  }

  /**
   No level is lost: if a property of that level feeds into a projection, the result has the level or
   a later one, a restricted source making it restricted. A projection without known sources has the
   least level and no mask, and no projection changes its name.
   */
  lemma NoLevelIsLost(reg: Registry, idx: Index, name: string, e: Expr, p: Property, i: nat)
    requires IsIndex(idx, AllProperties(reg)) && i < |LEVELS|
    ensures var r := ResolveProjection(idx, name, e);
            && r.name == name
            && (FeedsInto(reg, p, e) && p.sensitivity == LEVELS[i] ==> r.sensitivity in LEVELS[i..])
            && (FeedsInto(reg, p, e) && p.sensitivity == Restricted ==> r.sensitivity == Restricted)
            && ((forall q :: !FeedsInto(reg, q, e)) ==> r == ResolvedColumn(name, LEVELS[0], "MASK_NONE", false))
  {
    ProjectionIsAsSensitiveAsItsSources(reg, idx, name, e);
    var r := ResolveProjection(idx, name, e);
    EveryLevel(r.sensitivity);
    var j :| 0 <= j < |LEVELS| && LEVELS[j] == r.sensitivity;
    LevelsRise(i, j);
    if j >= i {
      assert LEVELS[i..][j - i] == r.sensitivity;
    }
    LevelsRise(4, j);
  }
}
