/**
  The whole-number statistics of a schema graph: counts of models, enums,
  relations by cardinality, indexes and enum values, and the per-model
  breakdown ordered from the most to the least connected model.
 */
module SchemaStats {
  import opened Wrappers
  import opened Strings
  import SG = SchemaGraph

  datatype RelationCounts = RelationCounts(oneToOne: nat, oneToMany: nat, manyToMany: nat)

  const NoRelations := RelationCounts(0, 0, 0)

  datatype ModelSummary = ModelSummary(
    name: string, dbName: string, relations: nat, fields: nat, indexes: nat, relatedModels: seq<string>,
    scalarFields: nat, enumFields: nat, uniqueFields: nat, requiredFields: nat, fieldsWithDefaults: nat,
    relationTypes: RelationCounts)

  predicate IsRelationField(f: SG.Field) { f.kind == SG.ObjectField }
  predicate IsScalarField(f: SG.Field) { f.kind == SG.ScalarField }
  predicate IsEnumField(f: SG.Field) { f.kind == SG.EnumField }
  predicate IsUniqueField(f: SG.Field) { f.isUnique }
  predicate IsRequiredField(f: SG.Field) { f.isRequired }
  predicate HasDefault(f: SG.Field) { f.hasDefaultValue }

  function CountWhere(fields: seq<SG.Field>, p: SG.Field -> bool): (n: nat)
    ensures n <= |fields|
  {
    if fields == [] then 0 else (if p(fields[0]) then 1 else 0) + CountWhere(fields[1..], p)
  }

  function RelatedModels(fields: seq<SG.Field>): seq<string> {
    if fields == [] then []
    else (if fields[0].kind == SG.ObjectField then [fields[0].typ] else []) + RelatedModels(fields[1..])
  }

  /** A model's entry before the relation edges are tallied. */
  function Summary(m: SG.Model): ModelSummary {
    ModelSummary(m.name, SG.DbName(m.name, m.dbName), CountWhere(m.fields, IsRelationField), |m.fields|,
                 |m.indexes| + |m.uniqueIndexes|, RelatedModels(m.fields),
                 CountWhere(m.fields, IsScalarField), CountWhere(m.fields, IsEnumField),
                 CountWhere(m.fields, IsUniqueField), CountWhere(m.fields, IsRequiredField),
                 CountWhere(m.fields, HasDefault), NoRelations)
  }

  /** One related model per relation field. */
  lemma {:induction false} RelatedModelsCount(fields: seq<SG.Field>)
    ensures |RelatedModels(fields)| == CountWhere(fields, IsRelationField)
  {
    if fields != [] {
      RelatedModelsCount(fields[1..]);
    }
  }

  // ---------------------------------------------------------------------------
  // Most connected first
  // ---------------------------------------------------------------------------

  /** Inserts `x` before the first entry with no more relations than it: equal counts keep their order. */
  function InsertDesc(x: ModelSummary, s: seq<ModelSummary>): (r: seq<ModelSummary>)
    ensures multiset(r) == multiset(s) + multiset{x} && |r| == |s| + 1
  {
    if s == [] then [x]
    else
      assert s == [s[0]] + s[1..];
      if s[0].relations > x.relations then [s[0]] + InsertDesc(x, s[1..]) else [x] + s
  }

  /** `.sort((a, b) => b.relations - a.relations)`, a stable sort. */
  function SortDesc(s: seq<ModelSummary>): (r: seq<ModelSummary>)
    ensures multiset(r) == multiset(s) && |r| == |s|
  {
    if s == [] then []
    else
      assert s == [s[0]] + s[1..];
      InsertDesc(s[0], SortDesc(s[1..]))
  }

  predicate NonIncreasing(s: seq<ModelSummary>) {
    forall i, j :: 0 <= i < j < |s| ==> s[i].relations >= s[j].relations
  }

  lemma {:induction false} InsertDescSorted(x: ModelSummary, s: seq<ModelSummary>)
    requires NonIncreasing(s)
    ensures NonIncreasing(InsertDesc(x, s))
    decreases |s|
  {
    if s != [] && s[0].relations > x.relations {
      InsertDescSorted(x, s[1..]);
      var r := InsertDesc(x, s[1..]);
      forall i | 0 <= i < |r| ensures s[0].relations >= r[i].relations {
        assert r[i] in multiset(s[1..]) + multiset{x};
        if r[i] != x {
          assert r[i] in s[1..];
          var k :| 0 <= k < |s[1..]| && s[1..][k] == r[i];
          assert s[k + 1] == r[i];
        }
      }
    }
  }

  /** The breakdown is ordered from the most to the least relation fields and loses or adds no entry. */
  lemma {:induction false} SortDescSorted(s: seq<ModelSummary>)
    ensures NonIncreasing(SortDesc(s)) && multiset(SortDesc(s)) == multiset(s)
    decreases |s|
  {
    if s != [] {
      SortDescSorted(s[1..]);
      InsertDescSorted(s[0], SortDesc(s[1..]));
    }
  }

  /** The entries with `c` relation fields, in order. */
  function WithRelations(s: seq<ModelSummary>, c: nat): (r: seq<ModelSummary>)
    ensures |r| <= |s|
  {
    if s == [] then [] else (if s[0].relations == c then [s[0]] else []) + WithRelations(s[1..], c)
  }

  /** Everything `InsertDesc` passes over has more relations than `x`, so `x` leads its own count. */
  lemma {:induction false} InsertDescStable(x: ModelSummary, s: seq<ModelSummary>, c: nat)
    ensures WithRelations(InsertDesc(x, s), c) == (if x.relations == c then [x] else []) + WithRelations(s, c)
    decreases |s|
  {
    var mine := if x.relations == c then [x] else [];
    if s == [] {
      assert [x][1..] == [];
    } else if s[0].relations > x.relations {
      var tail := InsertDesc(x, s[1..]);
      var r := [s[0]] + tail;
      assert InsertDesc(x, s) == r && r[0] == s[0] && r[1..] == tail;
      InsertDescStable(x, s[1..], c);
      var head := if s[0].relations == c then [s[0]] else [];
      assert WithRelations(r, c) == head + (mine + WithRelations(s[1..], c));
      assert WithRelations(s, c) == head + WithRelations(s[1..], c);
      assert head == [] || mine == [];
    } else {
      var r := [x] + s;
      assert InsertDesc(x, s) == r && r[0] == x && r[1..] == s;
    }
  }

  /** The sort is stable: entries with equal relation counts keep their input order. */
  lemma {:induction false} SortDescStable(s: seq<ModelSummary>, c: nat)
    ensures WithRelations(SortDesc(s), c) == WithRelations(s, c)
    decreases |s|
  {
    if s != [] {
      SortDescStable(s[1..], c);
      InsertDescStable(s[0], SortDesc(s[1..]), c);
    }
  }

  // ---------------------------------------------------------------------------
  // Relation types per model
  // ---------------------------------------------------------------------------

  /** `s.replace(pattern, "")`: the first occurrence removed. */
  function RemoveFirst(s: string, pattern: string): string
    requires pattern != []
  {
    if StartsWith(s, pattern) then s[|pattern|..]
    else if s == [] then []
    else [s[0]] + RemoveFirst(s[1..], pattern)
  }

  lemma RemoveModelPrefix(name: string)
    ensures RemoveFirst("model-" + name, "model-") == name
  {
    assert ("model-" + name)[..6] == "model-";
  }

  /** `modelBreakdown.find(m => m.name === name)`, as a position. */
  function FindSummary(b: seq<ModelSummary>, name: string): (r: Option<nat>)
    ensures r.Some? ==> r.value < |b| && b[r.value].name == name && forall j :: 0 <= j < r.value ==> b[j].name != name
    ensures r.None? ==> forall j :: 0 <= j < |b| ==> b[j].name != name
  {
    if b == [] then None
    else if b[0].name == name then Some(0)
    else match FindSummary(b[1..], name)
         case None => None
         case Some(k) => Some(k + 1)
  }

  function Bump(c: RelationCounts, t: SG.RelationType): RelationCounts {
    match t
    case OneToOne => c.(oneToOne := c.oneToOne + 1)
    case OneToMany => c.(oneToMany := c.oneToMany + 1)
    case ManyToMany => c.(manyToMany := c.manyToMany + 1)
  }

  function SourceName(e: SG.SchemaEdge): string {
    RemoveFirst(e.source, "model-")
  }

  /** One relation edge counted for the entry of the model it leaves. */
  function AddEdge(b: seq<ModelSummary>, e: SG.SchemaEdge): (r: seq<ModelSummary>)
    ensures |r| == |b| && forall k :: 0 <= k < |b| ==> r[k].name == b[k].name
  {
    if !e.RelationEdge? then b
    else match FindSummary(b, SourceName(e))
         case None => b
         case Some(k) => b[k := b[k].(relationTypes := Bump(b[k].relationTypes, e.relationType))]
  }

  function Tally(b: seq<ModelSummary>, es: seq<SG.SchemaEdge>): (r: seq<ModelSummary>)
    ensures |r| == |b| && forall k :: 0 <= k < |b| ==> r[k].name == b[k].name
    decreases |es|
  {
    if es == [] then b else AddEdge(Tally(b, es[..|es| - 1]), es[|es| - 1])
  }

  /** The per-model counting loop, updating the entry it finds. */
  method TallyRelationTypes(breakdown: seq<ModelSummary>, relationEdges: seq<SG.SchemaEdge>)
    returns (r: seq<ModelSummary>)
    ensures r == Tally(breakdown, relationEdges)
  {
    r := breakdown;
    var i := 0;
    while i < |relationEdges|
      invariant i <= |relationEdges|
      invariant r == Tally(breakdown, relationEdges[..i])
    {
      var edge := relationEdges[i];
      assert relationEdges[..i + 1][..i] == relationEdges[..i];
      if edge.RelationEdge? {
        var sourceModelName := RemoveFirst(edge.source, "model-");
        var found := FindSummary(r, sourceModelName);
        if found.Some? {
          var k := found.value;
          r := r[k := r[k].(relationTypes := Bump(r[k].relationTypes, edge.relationType))];
        }
      }
      i := i + 1;
    }
    assert relationEdges[..i] == relationEdges;
  }

  /** The relation edges leaving the model `name`, by cardinality. */
  function CountsFrom(es: seq<SG.SchemaEdge>, name: string): RelationCounts
    decreases |es|
  {
    if es == [] then NoRelations
    else
      var c := CountsFrom(es[..|es| - 1], name);
      var e := es[|es| - 1];
      if e.RelationEdge? && SourceName(e) == name then Bump(c, e.relationType) else c
  }

  function Plus(a: RelationCounts, b: RelationCounts): RelationCounts {
    RelationCounts(a.oneToOne + b.oneToOne, a.oneToMany + b.oneToMany, a.manyToMany + b.manyToMany)
  }

  /**
    After the tally, the first entry of each name has counted every
    relation edge leaving that model, by cardinality; every other entry,
    and every other part of an entry, is as it was.
   */
  lemma {:induction false} TallyCounts(b: seq<ModelSummary>, es: seq<SG.SchemaEdge>, k: nat)
    requires k < |b|
    ensures var r := Tally(b, es);
      r[k] == b[k].(relationTypes := Plus(b[k].relationTypes,
                        if FindSummary(b, b[k].name) == Some(k) then CountsFrom(es, b[k].name) else NoRelations))
    decreases |es|
  {
    if es != [] {
      var p := es[..|es| - 1];
      var e := es[|es| - 1];
      TallyCounts(b, p, k);
      var t := Tally(b, p);
      FindSame(b, t, SourceName(e));
      FindSame(b, t, b[k].name);
      AddEdgeAt(t, e, k);
      if e.RelationEdge? && SourceName(e) == b[k].name && FindSummary(b, b[k].name) == Some(k) {
        PlusBump(b[k].relationTypes, CountsFrom(p, b[k].name), e.relationType);
      }
    }
  }

  lemma AddEdgeAt(b: seq<ModelSummary>, e: SG.SchemaEdge, k: nat)
    requires k < |b|
    ensures AddEdge(b, e)[k] == if e.RelationEdge? && FindSummary(b, SourceName(e)) == Some(k)
                                then b[k].(relationTypes := Bump(b[k].relationTypes, e.relationType)) else b[k]
  {
  }

  lemma PlusBump(a: RelationCounts, c: RelationCounts, t: SG.RelationType)
    ensures Plus(a, Bump(c, t)) == Bump(Plus(a, c), t)
  {
  }

  /** Entries with the same names are found at the same place. */
  lemma {:induction false} FindSame(b: seq<ModelSummary>, t: seq<ModelSummary>, name: string)
    requires |t| == |b| && forall k :: 0 <= k < |b| ==> t[k].name == b[k].name
    ensures FindSummary(t, name) == FindSummary(b, name)
    decreases |b|
  {
    if b != [] && b[0].name != name {
      FindSame(b[1..], t[1..], name);
    }
  }

  // ---------------------------------------------------------------------------
  // The statistics
  // ---------------------------------------------------------------------------

  function CountType(es: seq<SG.SchemaEdge>, t: SG.RelationType): (n: nat)
    ensures n <= |es|
  {
    if es == [] then 0 else (if es[0].RelationEdge? && es[0].relationType == t then 1 else 0) + CountType(es[1..], t)
  }

  function CountEnumRefs(es: seq<SG.SchemaEdge>): (n: nat)
    ensures n <= |es|
  {
    if es == [] then 0 else (if es[0].EnumEdge? then 1 else 0) + CountEnumRefs(es[1..])
  }

  function CountRelations(es: seq<SG.SchemaEdge>): (n: nat)
    ensures n <= |es|
  {
    if es == [] then 0 else (if es[0].RelationEdge? then 1 else 0) + CountRelations(es[1..])
  }

  function SumRegular(models: seq<SG.Model>): nat {
    if models == [] then 0 else |models[0].indexes| + SumRegular(models[1..])
  }

  function SumUnique(models: seq<SG.Model>): nat {
    if models == [] then 0 else |models[0].uniqueIndexes| + SumUnique(models[1..])
  }

  function SumValues(enums: seq<SG.EnumDef>): nat {
    if enums == [] then 0 else |enums[0].values| + SumValues(enums[1..])
  }

  /** The enums some model field is typed with. */
  function EnumsUsed(models: seq<SG.Model>): set<string> {
    set m, f | m in models && f in m.fields && f.kind == SG.EnumField :: f.typ
  }

  function CountWithRelations(b: seq<ModelSummary>): (n: nat)
    ensures n <= |b|
  {
    if b == [] then 0 else (if b[0].relations > 0 then 1 else 0) + CountWithRelations(b[1..])
  }

  datatype Stats = Stats(
    modelCount: nat, enumCount: nat, totalRelations: nat, totalIndexes: nat,
    modelBreakdown: seq<ModelSummary>,
    oneToOne: nat, oneToMany: nat, manyToMany: nat, enumReferences: nat,
    regularIndexes: nat, uniqueIndexes: nat,
    totalEnumValues: nat, enumsUsedInModels: nat,
    mostConnected: Option<ModelSummary>, leastConnected: Option<ModelSummary>, modelsWithRelations: nat)

  function Breakdown(dm: SG.Datamodel, edges: seq<SG.SchemaEdge>): seq<ModelSummary> {
    var summaries := seq(|dm.models|, k requires 0 <= k < |dm.models| => Summary(dm.models[k]));
    Tally(SortDesc(summaries), edges)
  }

  /** `calculateComprehensiveStats`, its whole-number parts. */
  function ComprehensiveStats(dm: SG.Datamodel, edges: seq<SG.SchemaEdge>): Stats {
    var b := Breakdown(dm, edges);
    var regular := SumRegular(dm.models);
    var unique := SumUnique(dm.models);
    Stats(|dm.models|, |dm.enums|, CountRelations(edges), regular + unique, b,
          CountType(edges, SG.OneToOne), CountType(edges, SG.OneToMany), CountType(edges, SG.ManyToMany),
          CountEnumRefs(edges), regular, unique, SumValues(dm.enums), |EnumsUsed(dm.models)|,
          if b == [] then None else Some(b[0]), if b == [] then None else Some(b[|b| - 1]),
          CountWithRelations(b))
  }

  lemma {:induction false} CardinalitiesSum(es: seq<SG.SchemaEdge>)
    ensures CountType(es, SG.OneToOne) + CountType(es, SG.OneToMany) + CountType(es, SG.ManyToMany) == CountRelations(es)
  {
    if es != [] {
      CardinalitiesSum(es[1..]);
    }
  }

  /** The tally leaves every entry's relation-field count as it was. */
  lemma TallyKeepsRelations(b: seq<ModelSummary>, es: seq<SG.SchemaEdge>)
    ensures forall k :: 0 <= k < |b| ==> Tally(b, es)[k].relations == b[k].relations
  {
    forall k | 0 <= k < |b| ensures Tally(b, es)[k].relations == b[k].relations {
      TallyCounts(b, es, k);
    }
  }

  /**
    The three cardinalities add up to the relations, the index total is
    regular plus unique, and the most and least connected models are the
    first and last of the breakdown, which holds one entry per model from
    the most to the least relation fields; both are missing exactly when
    there are no models.
   */
  lemma StatsShape(dm: SG.Datamodel, edges: seq<SG.SchemaEdge>)
    ensures var s := ComprehensiveStats(dm, edges);
      s.oneToOne + s.oneToMany + s.manyToMany == s.totalRelations
      && s.totalIndexes == s.regularIndexes + s.uniqueIndexes
      && |s.modelBreakdown| == s.modelCount
      && NonIncreasing(s.modelBreakdown)
      && (s.mostConnected.None? <==> s.modelCount == 0) && (s.leastConnected.None? <==> s.modelCount == 0)
      && (s.mostConnected.Some? ==> forall k :: 0 <= k < |s.modelBreakdown| ==>
            s.mostConnected.value.relations >= s.modelBreakdown[k].relations
            && s.modelBreakdown[k].relations >= s.leastConnected.value.relations)
  {
    CardinalitiesSum(edges);
    BreakdownSorted(dm, edges);
  }

  /** One entry per model, from the most to the least relation fields, whatever the edges. */
  lemma BreakdownSorted(dm: SG.Datamodel, edges: seq<SG.SchemaEdge>)
    ensures |Breakdown(dm, edges)| == |dm.models| && NonIncreasing(Breakdown(dm, edges))
  {
    var summaries := seq(|dm.models|, k requires 0 <= k < |dm.models| => Summary(dm.models[k]));
    var sorted := SortDesc(summaries);
    SortDescSorted(summaries);
    TallyKeepsRelations(sorted, edges);
    var b := Tally(sorted, edges);
    assert b == Breakdown(dm, edges);
    forall i, j | 0 <= i < j < |b| ensures b[i].relations >= b[j].relations {
      assert sorted[i].relations >= sorted[j].relations;
    }
  }

  /**
    For a graph built from the data model, the relation total is the number
    of relation keys' first fields and the enum references are one per
    enum-typed field.
   */
  lemma StatsOfGraph(dm: SG.Datamodel)
    ensures var ss := SG.Sites(dm.models, |dm.models|);
      var s := ComprehensiveStats(dm, SG.Edges(dm));
      s.totalRelations == |SG.FirstSites(ss)| && s.enumReferences == |SG.EnumSites(ss)|
  {
    var ss := SG.Sites(dm.models, |dm.models|);
    SG.EdgesSpec(dm);
    FilterCounts(SG.Edges(dm));
  }

  lemma {:induction false} FilterCounts(es: seq<SG.SchemaEdge>)
    ensures CountRelations(es) == |SG.RelationEdges(es)| && CountEnumRefs(es) == |SG.EnumRefEdges(es)|
    decreases |es|
  {
    if es != [] {
      var p := es[..|es| - 1];
      var e := es[|es| - 1];
      FilterCounts(p);
      CountsSnoc(p, e);
      assert p + [e] == es;
    }
  }

  lemma {:induction false} CountsSnoc(p: seq<SG.SchemaEdge>, e: SG.SchemaEdge)
    ensures CountRelations(p + [e]) == CountRelations(p) + (if e.RelationEdge? then 1 else 0)
    ensures CountEnumRefs(p + [e]) == CountEnumRefs(p) + (if e.EnumEdge? then 1 else 0)
    decreases |p|
  {
    if p != [] {
      CountsSnoc(p[1..], e);
      assert (p + [e])[1..] == p[1..] + [e];
    }
  }
}
