/** The difference between staging and production (onto_platform/registry/diff.py). */
module Diff {
  import opened Wrappers
  import opened Ontology

  datatype Change<V> = Change(staging: V, production: V)

  /** The differences of one kind of definition. */
  datatype MapDiff<V> = MapDiff(added: map<string, V>, removed: map<string, V>, modified: map<string, Change<V>>)

  /** One of the five maps, its definitions seen as definitions of any kind. */
  function Definitions(reg: Registry, kind: Kind): (m: map<string, Definition>)
    ensures m.Keys == Keys(reg, kind)
  {
    map key | key in Keys(reg, kind) :: Lookup(reg, kind, key).value
  }

  ghost predicate IsMapDiff<V>(d: MapDiff<V>, s: map<string, V>, p: map<string, V>) {
    && d.added.Keys == s.Keys - p.Keys
    && (forall key | key in d.added :: d.added[key] == s[key])
    && d.removed.Keys == p.Keys - s.Keys
    && (forall key | key in d.removed :: d.removed[key] == p[key])
    && (forall key :: key in d.modified <==> key in s && key in p && s[key] != p[key])
    && (forall key | key in d.modified :: d.modified[key] == Change(s[key], p[key]))
  }

  /** The scan of one kind: staging first, then production. */
  method DiffMaps<V(==)>(s: map<string, V>, p: map<string, V>) returns (d: MapDiff<V>)
    ensures IsMapDiff(d, s, p)
  {
    var added, modified := map[], map[];
    var todo := s.Keys;
    while todo != {}
      invariant todo <= s.Keys
      invariant forall key :: key in added <==> key in s && key !in todo && key !in p
      invariant forall key | key in added :: added[key] == s[key]
      invariant forall key :: key in modified <==> key in s && key !in todo && key in p && s[key] != p[key]
      invariant forall key | key in modified :: modified[key] == Change(s[key], p[key])
    {
      var rid :| rid in todo;
      if rid !in p {
        added := added[rid := s[rid]];
      } else if s[rid] != p[rid] {
        modified := modified[rid := Change(s[rid], p[rid])];
      }
      todo := todo - {rid};
    }
    var removed := map[];
    todo := p.Keys;
    while todo != {}
      invariant todo <= p.Keys
      invariant forall key :: key in removed <==> key in p && key !in todo && key !in s
      invariant forall key | key in removed :: removed[key] == p[key]
    {
      var rid :| rid in todo;
      if rid !in s {
        removed := removed[rid := p[rid]];
      }
      todo := todo - {rid};
    }
    d := MapDiff(added, removed, modified);
  }

  ghost predicate IsDiff(d: map<Kind, MapDiff<Definition>>, staging: Registry, production: Registry) {
    forall kind :: kind in d && IsMapDiff(d[kind], Definitions(staging, kind), Definitions(production, kind))
  }

  method ComputeDiff(staging: Registry, production: Registry) returns (d: map<Kind, MapDiff<Definition>>)
    ensures IsDiff(d, staging, production)
  {
    d := map[];
    for i := 0 to |KINDS|
      invariant forall j | 0 <= j < i ::
        KINDS[j] in d && IsMapDiff(d[KINDS[j]], Definitions(staging, KINDS[j]), Definitions(production, KINDS[j]))
    {
      var m := DiffMaps(Definitions(staging, KINDS[i]), Definitions(production, KINDS[i]));
      d := d[KINDS[i] := m];
    }
    forall kind: Kind
      ensures kind in d && IsMapDiff(d[kind], Definitions(staging, kind), Definitions(production, kind))
    {
      assert kind == KINDS[0] || kind == KINDS[1] || kind == KINDS[2] || kind == KINDS[3] || kind == KINDS[4];
    }
  }

  /** Removes what was removed, adds what was added, overwrites with the staging side what was modified. */
  function Patch<V>(p: map<string, V>, d: MapDiff<V>): map<string, V> {
    (p - d.removed.Keys) + d.added + map key | key in d.modified :: d.modified[key].staging
  }

  lemma PatchMap<V>(s: map<string, V>, p: map<string, V>, d: MapDiff<V>)
    requires IsMapDiff(d, s, p)
    ensures Patch(p, d) == s
  {}

  lemma EmptyMapDiff<V>(s: map<string, V>, p: map<string, V>, d: MapDiff<V>)
    requires IsMapDiff(d, s, p)
    ensures d == MapDiff(map[], map[], map[]) <==> s == p
  {
    if d == MapDiff(map[], map[], map[]) {
      PatchMap(s, p, d);
      assert Patch(p, d) == p;
    }
  }

  lemma LookupDefinition(reg: Registry, kind: Kind, key: string)
    ensures Lookup(reg, kind, key) == if key in Definitions(reg, kind) then Some(Definitions(reg, kind)[key]) else None
  {}

  lemma SameMapsIff(a: Registry, b: Registry)
    ensures SameDefinitions(a, b) <==> forall kind :: Definitions(a, kind) == Definitions(b, kind)
  {
    forall kind, key
      ensures Lookup(a, kind, key) == (if key in Definitions(a, kind) then Some(Definitions(a, kind)[key]) else None)
      ensures Lookup(b, kind, key) == (if key in Definitions(b, kind) then Some(Definitions(b, kind)[key]) else None)
    {
      LookupDefinition(a, kind, key);
      LookupDefinition(b, kind, key);
    }
    if SameDefinitions(a, b) {
      forall kind ensures Definitions(a, kind) == Definitions(b, kind) {
        forall key ensures key in Definitions(a, kind) <==> key in Definitions(b, kind)
                   ensures key in Definitions(a, kind) ==> Definitions(a, kind)[key] == Definitions(b, kind)[key] {
          assert Lookup(a, kind, key) == Lookup(b, kind, key);
        }
      }
    }
  }

  /** The diff is a patch that turns production's five maps into staging's. */
  lemma PatchRoundTrip(staging: Registry, production: Registry, d: map<Kind, MapDiff<Definition>>)
    requires IsDiff(d, staging, production)
    ensures forall kind :: Patch(Definitions(production, kind), d[kind]) == Definitions(staging, kind)
  {
    forall kind ensures Patch(Definitions(production, kind), d[kind]) == Definitions(staging, kind) {
      PatchMap(Definitions(staging, kind), Definitions(production, kind), d[kind]);
    }
  }

  /** Nothing is reported exactly when the five maps agree; the version tag is not compared. */
  lemma EmptyIffSame(staging: Registry, production: Registry, d: map<Kind, MapDiff<Definition>>)
    requires IsDiff(d, staging, production)
    ensures (forall kind :: d[kind] == MapDiff(map[], map[], map[])) <==>
            staging == production.(version := staging.version)
  {
    forall kind
      ensures d[kind] == MapDiff(map[], map[], map[]) <==> Definitions(staging, kind) == Definitions(production, kind)
    {
      EmptyMapDiff(Definitions(staging, kind), Definitions(production, kind), d[kind]);
    }
    SameMapsIff(staging, production);
    SameDefinitionsIff(staging, production);
  }

  /** The same differences seen from the other side. */
  function Swapped<V>(d: MapDiff<V>): MapDiff<V> {
    MapDiff(d.removed, d.added,
            map key | key in d.modified :: Change(d.modified[key].production, d.modified[key].staging))
  }

  lemma SwapMapDiff<V>(a: map<string, V>, b: map<string, V>, d: MapDiff<V>, back: MapDiff<V>)
    requires IsMapDiff(d, a, b)
    ensures IsMapDiff(back, b, a) <==> back == Swapped(d)
  {
    if IsMapDiff(back, b, a) {
      assert back.added == d.removed && back.removed == d.added;
      assert back.modified == Swapped(d).modified;
    }
  }

  /** Swapping the arguments swaps, for every kind, added with removed and the two sides of every change. */
  lemma SwapDiff(staging: Registry, production: Registry,
                 d: map<Kind, MapDiff<Definition>>, back: map<Kind, MapDiff<Definition>>)
    requires IsDiff(d, staging, production)
    ensures IsDiff(back, production, staging) <==>
            forall kind :: kind in back && back[kind] == Swapped(d[kind])
  {
    forall kind | kind in back
      ensures IsMapDiff(back[kind], Definitions(production, kind), Definitions(staging, kind)) <==>
              back[kind] == Swapped(d[kind])
    {
      SwapMapDiff(Definitions(staging, kind), Definitions(production, kind), d[kind], back[kind]);
    }
  }
}
