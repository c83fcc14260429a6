/**
  The Prisma schema graph: one card per model and per enum of the parsed
  data model, one edge per relation (at most one per relation key) and one
  edge per enum-typed field.
 */
module SchemaGraph {
  import opened Wrappers
  import opened Strings
  import opened Geometry

  // ---------------------------------------------------------------------------
  // The parsed data model
  // ---------------------------------------------------------------------------

  datatype FieldKind = ScalarField | ObjectField | EnumField | UnsupportedField

  /**
    A field's default as it is displayed: none (also the falsy values), a
    function call such as `now()`, a string, or any other literal given by
    its text.
   */
  datatype DefaultValue = NoDefault | FunctionDefault(fn: string) | StringDefault(text: string) | LiteralDefault(text: string)

  /** An empty `relationName` or `dbName` stands for a missing one. */
  datatype Field = Field(
    name: string, kind: FieldKind, typ: string,
    isList: bool, isRequired: bool, isId: bool, isUnique: bool, isUpdatedAt: bool,
    hasDefaultValue: bool, default: DefaultValue,
    relationName: string, relationFromFields: seq<string>, relationToFields: Option<seq<string>>,
    dbName: string)

  datatype Index = Index(fields: seq<string>, name: Option<string>)

  /** Missing index lists are empty lists. */
  datatype Model = Model(
    name: string, dbName: string, fields: seq<Field>,
    primaryKey: Option<Index>, uniqueIndexes: seq<Index>, indexes: seq<Index>)

  datatype EnumValue = EnumValue(name: string, dbName: string)
  datatype EnumDef = EnumDef(name: string, dbName: string, values: seq<EnumValue>)
  datatype Datamodel = Datamodel(models: seq<Model>, enums: seq<EnumDef>)

  /** `x.dbName || x.name` */
  function DbName(name: string, dbName: string): string {
    if dbName == "" then name else dbName
  }

  // ---------------------------------------------------------------------------
  // Field display
  // ---------------------------------------------------------------------------

  predicate IsOptionalScalar(f: Field) {
    !f.isRequired && f.kind == ScalarField
  }

  /** `formatFieldType`: the type, "[]" for a list, then "?" for an optional scalar. */
  function FormatFieldType(f: Field): (r: string)
    ensures StartsWith(r, f.typ) && |r| <= |f.typ| + 3
    ensures StartsWith(r[|f.typ|..], "[]") <==> f.isList
    ensures EndsWith(r[|f.typ|..], "?") <==> IsOptionalScalar(f)
  {
    var list := if f.isList then "[]" else "";
    var opt := if IsOptionalScalar(f) then "?" else "";
    var r := f.typ + list + opt;
    assert r[|f.typ|..] == list + opt;
    assert |list + opt| > 0 ==> (list + opt)[|list + opt| - 1] == if IsOptionalScalar(f) then '?' else ']';
    assert |list + opt| > 0 ==> (list + opt)[0] == if f.isList then '[' else '?';
    r
  }

  /**
    `formatDefaultValue`: nothing without a default, a function default as
    a call, a string in double quotes, any other literal as its text.
   */
  function FormatDefault(d: DefaultValue): (r: string)
    ensures d.NoDefault? ==> r == ""
    ensures d.FunctionDefault? ==> EndsWith(r, "()") && r[..|r| - 2] == d.fn
    ensures d.StringDefault? && d.text != "" ==> |r| == |d.text| + 2 && r[0] == '"' && r[|r| - 1] == '"' && r[1..|r| - 1] == d.text
    ensures d.StringDefault? && d.text == "" ==> r == ""
    ensures d.LiteralDefault? ==> r == d.text
  {
    match d
    case NoDefault => ""
    case FunctionDefault(fn) => fn + "()"
    case StringDefault(text) => if text == "" then "" else "\"" + text + "\""
    case LiteralDefault(text) => text
  }

  /** The referenced columns of a foreign key: the listed ones, or "id" when there are none. */
  function ReferencedText(f: Field): string {
    var joined := if f.relationToFields.Some? then Join(f.relationToFields.value, ", ") else "";
    if joined == "" then "id" else joined
  }

  predicate HasForeignKey(f: Field) {
    f.kind == ObjectField && |f.relationFromFields| > 0
  }

  function FkText(f: Field): string {
    "FK (" + Join(f.relationFromFields, ", ") + ") \U{2192} " + f.typ + "(" + ReferencedText(f) + ")"
  }

  function Flag(b: bool): nat { if b then 1 else 0 }

  function Present(b: bool, text: string): seq<string> {
    if b then [text] else []
  }

  /**
    `getFieldConstraints`: primary key, unique, not null (required
    scalars), default, foreign key (relations with local columns), auto
    update, in that order.
   */
  function FieldConstraints(f: Field): (r: seq<string>)
    ensures |r| == Flag(f.isId) + Flag(f.isUnique) + Flag(f.isRequired && f.kind == ScalarField)
                   + Flag(f.hasDefaultValue) + Flag(HasForeignKey(f)) + Flag(f.isUpdatedAt)
  {
    Present(f.isId, "PRIMARY KEY") + Present(f.isUnique, "UNIQUE")
    + Present(f.isRequired && f.kind == ScalarField, "NOT NULL")
    + Present(f.hasDefaultValue, "DEFAULT " + FormatDefault(f.default))
    + Present(HasForeignKey(f), FkText(f)) + Present(f.isUpdatedAt, "AUTO UPDATE")
  }

  /** The first letters of the six constraint texts, which tell them apart. */
  lemma ConstraintInitials(f: Field)
    ensures "PRIMARY KEY"[0] == 'P' && "UNIQUE"[0] == 'U' && "NOT NULL"[0] == 'N' && "AUTO UPDATE"[0] == 'A'
    ensures ("DEFAULT " + FormatDefault(f.default))[0] == 'D' && FkText(f)[0] == 'F'
  {
  }

  /** A primary-key field, and only one, has "PRIMARY KEY" as its first constraint. */
  lemma FieldConstraintsFirst(f: Field)
    ensures f.isId <==> |FieldConstraints(f)| > 0 && FieldConstraints(f)[0] == "PRIMARY KEY"
  {
    ConstraintInitials(f);
    var r := FieldConstraints(f);
    if |r| > 0 && !f.isId {
      assert r[0][0] != 'P';
    }
  }

  /** An updated-at field, and only one, has "AUTO UPDATE" as its last constraint. */
  lemma FieldConstraintsLast(f: Field)
    ensures f.isUpdatedAt <==> |FieldConstraints(f)| > 0 && FieldConstraints(f)[|FieldConstraints(f)| - 1] == "AUTO UPDATE"
  {
    ConstraintInitials(f);
    var r := FieldConstraints(f);
    if |r| > 0 && !f.isUpdatedAt {
      assert r[|r| - 1][0] != 'A';
    }
  }

  // ---------------------------------------------------------------------------
  // Nodes
  // ---------------------------------------------------------------------------

  datatype FieldRow = FieldRow(
    title: string, typ: string, constraints: seq<string>,
    isId: bool, isUnique: bool, isRequired: bool, isRelation: bool, isEnum: bool, isList: bool,
    handleId: string, dbName: string, hasDefaultValue: bool, default: DefaultValue)

  datatype EnumRow = EnumRow(title: string, typ: string, handleId: string, dbName: string, isEnumRoot: bool)

  datatype ModelConstraint = ModelConstraint(kind: string, fields: seq<string>, name: Option<string>)

  datatype ModelStats = ModelStats(totalFields: nat, relations: nat, indexes: nat, constraints: nat)

  /** A card; both kinds are drawn by the same component at the origin until laid out. */
  datatype SchemaNode =
    | ModelNode(id: string, position: Position, labelText: string, dbName: string, schema: seq<FieldRow>,
                stats: ModelStats, constraints: seq<ModelConstraint>, primaryKey: Option<Index>,
                uniqueIndexes: seq<Index>, indexes: seq<Index>)
    | EnumNode(id: string, position: Position, labelText: string, dbName: string, enumSchema: seq<EnumRow>,
               totalFields: nat)

  function Row(m: Model, f: Field): FieldRow {
    FieldRow(f.name, FormatFieldType(f), FieldConstraints(f), f.isId, f.isUnique, f.isRequired,
             f.kind == ObjectField, f.kind == EnumField, f.isList, m.name + "." + f.name,
             DbName(f.name, f.dbName), f.hasDefaultValue, f.default)
  }

  function PrimaryKeyPart(m: Model): seq<ModelConstraint> {
    if m.primaryKey.Some? && |m.primaryKey.value.fields| > 1
    then [ModelConstraint("PRIMARY KEY", m.primaryKey.value.fields, m.primaryKey.value.name)]
    else []
  }

  function IndexEntries(kind: string, ixs: seq<Index>): seq<ModelConstraint> {
    seq(|ixs|, k requires 0 <= k < |ixs| => ModelConstraint(kind, ixs[k].fields, ixs[k].name))
  }

  /** The model's constraints: a composite primary key, then the unique indexes, then the indexes. */
  function ModelConstraints(m: Model): seq<ModelConstraint> {
    PrimaryKeyPart(m) + IndexEntries("UNIQUE", m.uniqueIndexes) + IndexEntries("INDEX", m.indexes)
  }

  /** `getModelConstraints`, pushing entry by entry. */
  method GetModelConstraints(m: Model) returns (constraints: seq<ModelConstraint>)
    ensures constraints == ModelConstraints(m)
  {
    constraints := [];
    if m.primaryKey.Some? && |m.primaryKey.value.fields| > 1 {
      constraints := constraints + [ModelConstraint("PRIMARY KEY", m.primaryKey.value.fields, m.primaryKey.value.name)];
    }
    var head := constraints;
    var i := 0;
    while i < |m.uniqueIndexes|
      invariant i <= |m.uniqueIndexes|
      invariant constraints == head + IndexEntries("UNIQUE", m.uniqueIndexes[..i])
    {
      var index := m.uniqueIndexes[i];
      assert m.uniqueIndexes[..i + 1] == m.uniqueIndexes[..i] + [index];
      constraints := constraints + [ModelConstraint("UNIQUE", index.fields, index.name)];
      i := i + 1;
    }
    assert m.uniqueIndexes[..i] == m.uniqueIndexes;
    head := constraints;
    i := 0;
    while i < |m.indexes|
      invariant i <= |m.indexes|
      invariant constraints == head + IndexEntries("INDEX", m.indexes[..i])
    {
      var index := m.indexes[i];
      assert m.indexes[..i + 1] == m.indexes[..i] + [index];
      constraints := constraints + [ModelConstraint("INDEX", index.fields, index.name)];
      i := i + 1;
    }
    assert m.indexes[..i] == m.indexes;
  }

  /**
    The composite primary key is listed only when it spans more than one
    field, and comes first; the unique indexes follow, then the indexes,
    each in declaration order.
   */
  lemma ModelConstraintsShape(m: Model)
    ensures var r := ModelConstraints(m);
      var p := Flag(m.primaryKey.Some? && |m.primaryKey.value.fields| > 1);
      var u := |m.uniqueIndexes|;
      |r| == p + u + |m.indexes|
      && (p == 1 ==> r[0].kind == "PRIMARY KEY" && r[0].fields == m.primaryKey.value.fields)
      && (forall k :: 0 <= k < u ==> r[p + k].kind == "UNIQUE" && r[p + k].fields == m.uniqueIndexes[k].fields)
      && (forall k :: 0 <= k < |m.indexes| ==> r[p + u + k].kind == "INDEX" && r[p + u + k].fields == m.indexes[k].fields)
  {
  }

  function CountKind(fields: seq<Field>, kind: FieldKind): (n: nat)
    ensures n <= |fields|
  {
    if fields == [] then 0 else (if fields[0].kind == kind then 1 else 0) + CountKind(fields[1..], kind)
  }

  /** `createModelNode` */
  function ModelNodeOf(m: Model): SchemaNode {
    var constraints := ModelConstraints(m);
    ModelNode("model-" + m.name, Position(0.0, 0.0), m.name, DbName(m.name, m.dbName),
              seq(|m.fields|, k requires 0 <= k < |m.fields| => Row(m, m.fields[k])),
              ModelStats(|m.fields|, CountKind(m.fields, ObjectField), |m.uniqueIndexes| + |m.indexes|, |constraints|),
              constraints, m.primaryKey, m.uniqueIndexes, m.indexes)
  }

  /** `createEnumNode`: a row for the enum itself, then one per value. */
  function EnumNodeOf(e: EnumDef): SchemaNode {
    var root := EnumRow(e.name, "enum type", e.name + "." + e.name, DbName(e.name, e.dbName), true);
    var rows := seq(|e.values|, k requires 0 <= k < |e.values| =>
      EnumRow(e.values[k].name, "enum value", e.name + "." + e.values[k].name, DbName(e.values[k].name, e.values[k].dbName), false));
    EnumNode("enum-" + e.name, Position(0.0, 0.0), e.name, DbName(e.name, e.dbName), [root] + rows, |e.values|)
  }

  /**
    A model card has one row per field with the field's handle and
    formatted type, and counts its fields, relation fields, indexes of both
    kinds and constraints.
   */
  lemma ModelNodeShape(m: Model)
    ensures var n := ModelNodeOf(m);
      n.ModelNode? && n.id == "model-" + m.name && |n.schema| == |m.fields| == n.stats.totalFields
      && (forall k :: 0 <= k < |m.fields| ==>
            n.schema[k].title == m.fields[k].name && n.schema[k].handleId == m.name + "." + m.fields[k].name
            && n.schema[k].typ == FormatFieldType(m.fields[k])
            && (n.schema[k].isRelation <==> m.fields[k].kind == ObjectField))
      && n.stats.relations == CountKind(m.fields, ObjectField)
      && n.stats.indexes == |m.uniqueIndexes| + |m.indexes|
      && n.stats.constraints == |n.constraints|
  {
  }

  /**
    An enum card has the enum's own row first and then one row per value;
    its field count is the number of values.
   */
  lemma EnumNodeShape(e: EnumDef)
    ensures var n := EnumNodeOf(e);
      n.EnumNode? && n.id == "enum-" + e.name && |n.enumSchema| == |e.values| + 1 && n.totalFields == |e.values|
      && n.enumSchema[0].isEnumRoot && n.enumSchema[0].title == e.name && n.enumSchema[0].handleId == e.name + "." + e.name
      && forall k :: 0 <= k < |e.values| ==>
           !n.enumSchema[k + 1].isEnumRoot && n.enumSchema[k + 1].title == e.values[k].name
           && n.enumSchema[k + 1].handleId == e.name + "." + e.values[k].name
  {
  }

  /** The model cards in order, then the enum cards in order. */
  function Nodes(dm: Datamodel): seq<SchemaNode> {
    seq(|dm.models|, k requires 0 <= k < |dm.models| => ModelNodeOf(dm.models[k]))
    + seq(|dm.enums|, k requires 0 <= k < |dm.enums| => EnumNodeOf(dm.enums[k]))
  }

  lemma NodesOrder(dm: Datamodel)
    ensures var ns := Nodes(dm);
      |ns| == |dm.models| + |dm.enums|
      && (forall k :: 0 <= k < |dm.models| ==> ns[k].id == "model-" + dm.models[k].name)
      && (forall k :: 0 <= k < |dm.enums| ==> ns[|dm.models| + k].id == "enum-" + dm.enums[k].name)
  {
  }

  // ---------------------------------------------------------------------------
  // Edges
  // ---------------------------------------------------------------------------

  datatype RelationType = OneToOne | OneToMany | ManyToMany

  datatype SchemaEdge =
    | RelationEdge(id: string, source: string, target: string, sourceHandle: string, targetHandle: string,
                   labelText: string, relationType: RelationType, relationName: string,
                   foreignKeyFields: seq<string>, referencedFields: seq<string>)
    | EnumEdge(id: string, source: string, target: string, sourceHandle: string, targetHandle: string)

  /** `allModels.find(m => m.name === name)` */
  function FindModel(models: seq<Model>, name: string): (r: Option<Model>)
    ensures r.Some? ==> r.value in models && r.value.name == name
    ensures r.None? <==> forall k :: 0 <= k < |models| ==> models[k].name != name
  {
    if models == [] then None else if models[0].name == name then Some(models[0]) else FindModel(models[1..], name)
  }

  predicate IsReverse(f: Field, sourceModel: string, relationName: string) {
    f.kind == ObjectField && f.typ == sourceModel && f.relationName == relationName
  }

  /** The first field of the target pointing back at the source model through the same relation. */
  function FindReverse(fields: seq<Field>, sourceModel: string, relationName: string): (r: Option<Field>)
    ensures r.Some? ==> r.value in fields && IsReverse(r.value, sourceModel, relationName)
    ensures r.None? <==> forall k :: 0 <= k < |fields| ==> !IsReverse(fields[k], sourceModel, relationName)
  {
    if fields == [] then None
    else if IsReverse(fields[0], sourceModel, relationName) then Some(fields[0])
    else FindReverse(fields[1..], sourceModel, relationName)
  }

  /** Whether the far side is a list; a missing target or back-reference counts as not a list. */
  function TargetIsList(m: Model, f: Field, target: Option<Model>): bool {
    target.Some? && match FindReverse(target.value.fields, m.name, f.relationName)
                    case Some(rev) => rev.isList
                    case None => false
  }

  /** `determineRelationType` */
  function DetermineRelationType(m: Model, f: Field, target: Option<Model>): (r: RelationType)
    ensures r == ManyToMany <==> f.isList && TargetIsList(m, f, target)
    ensures r == OneToMany <==> f.isList != TargetIsList(m, f, target)
    ensures r == OneToOne <==> !f.isList && !TargetIsList(m, f, target)
  {
    var targetIsList := TargetIsList(m, f, target);
    if f.isList && targetIsList then ManyToMany
    else if f.isList || targetIsList then OneToMany
    else OneToOne
  }

  /** Without a back-reference the source side alone decides. */
  lemma NoReverseRelation(m: Model, f: Field, target: Option<Model>)
    requires target.None? || FindReverse(target.value.fields, m.name, f.relationName).None?
    ensures DetermineRelationType(m, f, target) == if f.isList then OneToMany else OneToOne
  {
  }

  /** The relation's name, or else the two model names in sorted order joined by "-". */
  function RelationKey(m: Model, f: Field): (k: string)
    ensures f.relationName != "" ==> k == f.relationName
    ensures f.relationName == "" ==> k == m.name + "-" + f.typ || k == f.typ + "-" + m.name
  {
    if f.relationName != "" then f.relationName
    else if LexLe(m.name, f.typ) then m.name + "-" + f.typ
    else f.typ + "-" + m.name
  }

  /** Both ends of an unnamed relation give the same key. */
  lemma RelationKeySymmetric(m: Model, f: Field, m': Model, f': Field)
    requires f.relationName == "" && f'.relationName == "" && m'.name == f.typ && f'.typ == m.name
    ensures RelationKey(m, f) == RelationKey(m', f')
  {
    LexLeTotal(m.name, f.typ);
    if LexLe(m.name, f.typ) && LexLe(f.typ, m.name) {
      LexLeAntisym(m.name, f.typ);
    }
  }

  function RelationSymbol(t: RelationType): string {
    match t
    case OneToOne => "1:1"
    case OneToMany => "1:N"
    case ManyToMany => "N:N"
  }

  /** `getForeignKeyInfo`: the local and the referenced columns, when there are local ones. */
  function ForeignKey(f: Field): Option<(seq<string>, seq<string>)> {
    if |f.relationFromFields| == 0 then None
    else Some((f.relationFromFields, if f.relationToFields.Some? then f.relationToFields.value else ["id"]))
  }

  function NonEmpty(parts: seq<string>): (r: seq<string>)
    ensures forall k :: 0 <= k < |r| ==> r[k] != ""
  {
    if parts == [] then [] else (if parts[0] == "" then [] else [parts[0]]) + NonEmpty(parts[1..])
  }

  /** `createEdgeLabel`: the cardinality symbol, the relation name and the key columns, joined by " | ". */
  function EdgeLabel(f: Field, t: RelationType, fk: Option<(seq<string>, seq<string>)>): (r: string)
    ensures StartsWith(r, RelationSymbol(t))
    ensures f.relationName == "" && fk.None? ==> r == RelationSymbol(t)
  {
    var parts := [RelationSymbol(t)]
      + (if f.relationName != "" then [f.relationName] else [])
      + (if fk.Some? then [Join(fk.value.0, ",") + " \U{2192} " + Join(fk.value.1, ",")] else []);
    LabelStart(parts);
    NonEmptyHead(parts);
    Join(NonEmpty(parts), " | ")
  }

  lemma NonEmptyHead(parts: seq<string>)
    requires parts != [] && parts[0] != ""
    ensures NonEmpty(parts) == [parts[0]] + NonEmpty(parts[1..])
  {
  }

  lemma LabelStart(parts: seq<string>)
    requires parts != [] && parts[0] != ""
    ensures StartsWith(Join(NonEmpty(parts), " | "), parts[0])
  {
    NonEmptyHead(parts);
    var ne := NonEmpty(parts);
    if |ne| > 1 {
      assert Join(ne, " | ") == ne[0] + " | " + Join(ne[1..], " | ");
    }
  }

  /** The target model's first id field names the edge's target handle, "id" otherwise. */
  function TargetHandle(f: Field, target: Option<Model>): string {
    var pk := if target.Some? then FirstId(target.value.fields) else None;
    if pk.Some? then f.typ + "." + pk.value.name + "-target" else f.typ + ".id-target"
  }

  function FirstId(fields: seq<Field>): (r: Option<Field>)
    ensures r.Some? ==> r.value in fields && r.value.isId
    ensures r.None? <==> forall k :: 0 <= k < |fields| ==> !fields[k].isId
  {
    if fields == [] then None else if fields[0].isId then Some(fields[0]) else FirstId(fields[1..])
  }

  /** The edge `createRelationEdge` builds for a relation field it has not seen the key of. */
  function RelationEdgeOf(all: seq<Model>, m: Model, f: Field): SchemaEdge {
    var target := FindModel(all, f.typ);
    var t := DetermineRelationType(m, f, target);
    RelationEdge("relation-" + m.name + "-" + f.name + "-" + f.typ, "model-" + m.name, "model-" + f.typ,
                 m.name + "." + f.name + "-source", TargetHandle(f, target),
                 EdgeLabel(f, t, ForeignKey(f)), t, f.relationName, f.relationFromFields,
                 if f.relationToFields.Some? then f.relationToFields.value else [])
  }

  /** `createEnumEdge` */
  function EnumEdgeOf(m: Model, f: Field): SchemaEdge {
    EnumEdge("enum-ref-" + m.name + "-" + f.name + "-" + f.typ, "model-" + m.name, "enum-" + f.typ,
             m.name + "." + f.name + "-source", f.typ + "." + f.typ + "-target")
  }

  /** `createRelationEdge`: nothing for a key already seen; otherwise the key is recorded and the edge built. */
  method CreateRelationEdge(m: Model, f: Field, all: seq<Model>, processed: set<string>)
    returns (edge: Option<SchemaEdge>, processed': set<string>)
    ensures RelationKey(m, f) in processed ==> edge.None? && processed' == processed
    ensures RelationKey(m, f) !in processed ==> edge == Some(RelationEdgeOf(all, m, f)) && processed' == processed + {RelationKey(m, f)}
  {
    var relationKey := if f.relationName != "" then f.relationName
                       else if LexLe(m.name, f.typ) then m.name + "-" + f.typ else f.typ + "-" + m.name;
    if relationKey in processed {
      return None, processed;
    }
    processed' := processed + {relationKey};
    var target := FindModel(all, f.typ);
    var targetPrimaryKey := if target.Some? then FirstId(target.value.fields) else None;
    var targetHandle := if targetPrimaryKey.Some? then f.typ + "." + targetPrimaryKey.value.name + "-target"
                        else f.typ + ".id-target";
    var relationType := DetermineRelationType(m, f, target);
    var labelText := EdgeLabel(f, relationType, ForeignKey(f));
    edge := Some(RelationEdge("relation-" + m.name + "-" + f.name + "-" + f.typ, "model-" + m.name, "model-" + f.typ,
                              m.name + "." + f.name + "-source", targetHandle, labelText, relationType, f.relationName,
                              f.relationFromFields, if f.relationToFields.Some? then f.relationToFields.value else []));
  }

  // ---------------------------------------------------------------------------
  // The walk over all fields
  // ---------------------------------------------------------------------------

  /** A field together with the model declaring it. */
  datatype Site = Site(model: Model, field: Field)

  function FieldSites(m: Model): seq<Site> {
    seq(|m.fields|, k requires 0 <= k < |m.fields| => Site(m, m.fields[k]))
  }

  /** The fields of the first `k` models, in declaration order. */
  function Sites(models: seq<Model>, k: nat): seq<Site>
    requires k <= |models|
  {
    if k == 0 then [] else Sites(models, k - 1) + FieldSites(models[k - 1])
  }

  /** The edges so far and the relation keys already seen. */
  datatype Scan = Scan(edges: seq<SchemaEdge>, processed: set<string>)

  /** One field: at most one relation edge, or an enum edge. */
  function Visit(all: seq<Model>, st: Scan, s: Site): Scan {
    match s.field.kind
    case ObjectField =>
      var key := RelationKey(s.model, s.field);
      if key in st.processed then st else Scan(st.edges + [RelationEdgeOf(all, s.model, s.field)], st.processed + {key})
    case EnumField => Scan(st.edges + [EnumEdgeOf(s.model, s.field)], st.processed)
    case _ => st
  }

  function ScanSites(all: seq<Model>, ss: seq<Site>): Scan
    decreases |ss|
  {
    if ss == [] then Scan([], {}) else Visit(all, ScanSites(all, ss[..|ss| - 1]), ss[|ss| - 1])
  }

  /** The edges of the data model. */
  function Edges(dm: Datamodel): seq<SchemaEdge> {
    ScanSites(dm.models, Sites(dm.models, |dm.models|)).edges
  }

  lemma ScanSnoc(all: seq<Model>, ss: seq<Site>, s: Site)
    ensures ScanSites(all, ss + [s]) == Visit(all, ScanSites(all, ss), s)
  {
    assert (ss + [s])[..|ss + [s]| - 1] == ss;
  }

  // ---------------------------------------------------------------------------
  // What the walk produces
  // ---------------------------------------------------------------------------

  predicate IsRelationSite(s: Site) { s.field.kind == ObjectField }

  function KeyOf(s: Site): string { RelationKey(s.model, s.field) }

  /** The relation keys of the relation fields among `ss`. */
  ghost function ObjectKeys(ss: seq<Site>): set<string> {
    set i | 0 <= i < |ss| && IsRelationSite(ss[i]) :: KeyOf(ss[i])
  }

  /** The relation fields whose key no earlier relation field has. */
  ghost function FirstSites(ss: seq<Site>): seq<Site>
    decreases |ss|
  {
    if ss == [] then []
    else
      var p := ss[..|ss| - 1];
      var s := ss[|ss| - 1];
      FirstSites(p) + (if IsRelationSite(s) && KeyOf(s) !in ObjectKeys(p) then [s] else [])
  }

  /** The enum-typed fields among `ss`. */
  function EnumSites(ss: seq<Site>): seq<Site>
    decreases |ss|
  {
    if ss == [] then []
    else EnumSites(ss[..|ss| - 1]) + (if ss[|ss| - 1].field.kind == EnumField then [ss[|ss| - 1]] else [])
  }

  function RelationEdges(es: seq<SchemaEdge>): seq<SchemaEdge>
    decreases |es|
  {
    if es == [] then []
    else RelationEdges(es[..|es| - 1]) + (if es[|es| - 1].RelationEdge? then [es[|es| - 1]] else [])
  }

  function EnumRefEdges(es: seq<SchemaEdge>): seq<SchemaEdge>
    decreases |es|
  {
    if es == [] then []
    else EnumRefEdges(es[..|es| - 1]) + (if es[|es| - 1].EnumEdge? then [es[|es| - 1]] else [])
  }

  function RelationEdgesFor(all: seq<Model>, ss: seq<Site>): seq<SchemaEdge> {
    seq(|ss|, k requires 0 <= k < |ss| => RelationEdgeOf(all, ss[k].model, ss[k].field))
  }

  function EnumEdgesFor(ss: seq<Site>): seq<SchemaEdge> {
    seq(|ss|, k requires 0 <= k < |ss| => EnumEdgeOf(ss[k].model, ss[k].field))
  }

  lemma ObjectKeysSnoc(p: seq<Site>, s: Site)
    ensures ObjectKeys(p + [s]) == ObjectKeys(p) + (if IsRelationSite(s) then {KeyOf(s)} else {})
  {
    var ss := p + [s];
    forall k | k in ObjectKeys(ss) ensures k in ObjectKeys(p) || (IsRelationSite(s) && k == KeyOf(s)) {
      var i :| 0 <= i < |ss| && IsRelationSite(ss[i]) && KeyOf(ss[i]) == k;
      if i < |p| {
        assert ss[i] == p[i];
      }
    }
    forall k | k in ObjectKeys(p) ensures k in ObjectKeys(ss) {
      var i :| 0 <= i < |p| && IsRelationSite(p[i]) && KeyOf(p[i]) == k;
      assert ss[i] == p[i];
    }
    if IsRelationSite(s) {
      assert ss[|p|] == s;
    }
  }

  lemma RelationEdgesSnoc(es: seq<SchemaEdge>, e: SchemaEdge)
    ensures RelationEdges(es + [e]) == RelationEdges(es) + (if e.RelationEdge? then [e] else [])
    ensures EnumRefEdges(es + [e]) == EnumRefEdges(es) + (if e.EnumEdge? then [e] else [])
  {
    assert (es + [e])[..|es + [e]| - 1] == es;
  }

  lemma EdgesForSnoc(all: seq<Model>, ss: seq<Site>, s: Site)
    ensures RelationEdgesFor(all, ss + [s]) == RelationEdgesFor(all, ss) + [RelationEdgeOf(all, s.model, s.field)]
    ensures EnumEdgesFor(ss + [s]) == EnumEdgesFor(ss) + [EnumEdgeOf(s.model, s.field)]
  {
  }

  lemma SitesSnoc(p: seq<Site>, s: Site)
    ensures FirstSites(p + [s]) == FirstSites(p) + (if IsRelationSite(s) && KeyOf(s) !in ObjectKeys(p) then [s] else [])
    ensures EnumSites(p + [s]) == EnumSites(p) + (if s.field.kind == EnumField then [s] else [])
  {
    assert (p + [s])[..|p + [s]| - 1] == p;
  }

  /** The walk has seen exactly the relation keys of the relation fields. */
  lemma {:induction false} ScanProcessed(all: seq<Model>, ss: seq<Site>)
    ensures ScanSites(all, ss).processed == ObjectKeys(ss)
    decreases |ss|
  {
    if ss != [] {
      var p := ss[..|ss| - 1];
      var s := ss[|ss| - 1];
      assert ss == p + [s];
      ScanProcessed(all, p);
      ObjectKeysSnoc(p, s);
    }
  }

  /** The walk's relation edges are those of the first field of each key, in order. */
  lemma {:induction false} ScanRelations(all: seq<Model>, ss: seq<Site>)
    ensures RelationEdges(ScanSites(all, ss).edges) == RelationEdgesFor(all, FirstSites(ss))
    decreases |ss|
  {
    if ss != [] {
      var p := ss[..|ss| - 1];
      var s := ss[|ss| - 1];
      assert ss == p + [s];
      ScanRelations(all, p);
      ScanProcessed(all, p);
      SitesSnoc(p, s);
      var st := ScanSites(all, p);
      match s.field.kind
      case ObjectField =>
        if KeyOf(s) !in st.processed {
          RelationEdgesSnoc(st.edges, RelationEdgeOf(all, s.model, s.field));
          EdgesForSnoc(all, FirstSites(p), s);
        }
      case EnumField =>
        RelationEdgesSnoc(st.edges, EnumEdgeOf(s.model, s.field));
      case _ =>
    }
  }

  /** The walk's enum edges are those of every enum-typed field, in order. */
  lemma {:induction false} ScanEnums(all: seq<Model>, ss: seq<Site>)
    ensures EnumRefEdges(ScanSites(all, ss).edges) == EnumEdgesFor(EnumSites(ss))
    decreases |ss|
  {
    if ss != [] {
      var p := ss[..|ss| - 1];
      var s := ss[|ss| - 1];
      assert ss == p + [s];
      ScanEnums(all, p);
      SitesSnoc(p, s);
      var st := ScanSites(all, p);
      match s.field.kind
      case ObjectField =>
        if KeyOf(s) !in st.processed {
          RelationEdgesSnoc(st.edges, RelationEdgeOf(all, s.model, s.field));
        }
      case EnumField =>
        RelationEdgesSnoc(st.edges, EnumEdgeOf(s.model, s.field));
        EdgesForSnoc(all, EnumSites(p), s);
      case _ =>
    }
  }

  /** The fields that get a relation edge are relation fields with keys that were seen. */
  lemma {:induction false} FirstSitesSeen(ss: seq<Site>)
    ensures forall t :: 0 <= t < |FirstSites(ss)| ==> IsRelationSite(FirstSites(ss)[t]) && KeyOf(FirstSites(ss)[t]) in ObjectKeys(ss)
    decreases |ss|
  {
    if ss != [] {
      var p := ss[..|ss| - 1];
      var s := ss[|ss| - 1];
      assert ss == p + [s];
      FirstSitesSeen(p);
      SitesSnoc(p, s);
      ObjectKeysSnoc(p, s);
    }
  }

  /** The fields that get a relation edge have pairwise different keys. */
  lemma {:induction false} FirstSitesDistinct(ss: seq<Site>)
    ensures forall i, j :: 0 <= i < j < |FirstSites(ss)| ==> KeyOf(FirstSites(ss)[i]) != KeyOf(FirstSites(ss)[j])
    decreases |ss|
  {
    if ss != [] {
      var p := ss[..|ss| - 1];
      var s := ss[|ss| - 1];
      assert ss == p + [s];
      FirstSitesDistinct(p);
      FirstSitesSeen(p);
      SitesSnoc(p, s);
    }
  }

  /** Every relation key is the key of a field that gets an edge. */
  lemma {:induction false} FirstSitesCover(ss: seq<Site>, k: string)
    requires k in ObjectKeys(ss)
    ensures exists t :: 0 <= t < |FirstSites(ss)| && KeyOf(FirstSites(ss)[t]) == k
    decreases |ss|
  {
    var p := ss[..|ss| - 1];
    var s := ss[|ss| - 1];
    assert ss == p + [s];
    ObjectKeysSnoc(p, s);
    SitesSnoc(p, s);
    var fp := FirstSites(p);
    if k in ObjectKeys(p) {
      FirstSitesCover(p, k);
      var t :| 0 <= t < |fp| && KeyOf(fp[t]) == k;
      assert FirstSites(ss)[t] == fp[t];
    } else {
      assert FirstSites(ss)[|fp|] == s;
    }
  }

  /** Each field that gets a relation edge is the first relation field with its key. */
  lemma {:induction false} FirstSitesEarliest(ss: seq<Site>, t: nat)
    requires t < |FirstSites(ss)|
    ensures exists i :: 0 <= i < |ss| && ss[i] == FirstSites(ss)[t] && KeyOf(ss[i]) !in ObjectKeys(ss[..i])
    decreases |ss|
  {
    var p := ss[..|ss| - 1];
    var s := ss[|ss| - 1];
    assert ss == p + [s];
    SitesSnoc(p, s);
    var fp := FirstSites(p);
    if t < |fp| {
      FirstSitesEarliest(p, t);
      var i :| 0 <= i < |p| && p[i] == fp[t] && KeyOf(p[i]) !in ObjectKeys(p[..i]);
      assert ss[i] == p[i] && ss[..i] == p[..i];
      assert FirstSites(ss)[t] == fp[t];
    } else {
      assert ss[|p|] == s && ss[..|p|] == p;
    }
  }

  /**
    The edges of a data model: one relation edge for the first field of
    each relation key, one enum edge for each enum-typed field, the first
    kind in field order and so is the second.
   */
  lemma EdgesSpec(dm: Datamodel)
    ensures var ss := Sites(dm.models, |dm.models|);
      RelationEdges(Edges(dm)) == RelationEdgesFor(dm.models, FirstSites(ss))
      && EnumRefEdges(Edges(dm)) == EnumEdgesFor(EnumSites(ss))
  {
    ScanRelations(dm.models, Sites(dm.models, |dm.models|));
    ScanEnums(dm.models, Sites(dm.models, |dm.models|));
  }

  /** The cards, model by model and then enum by enum. */
  method CreateNodes(dm: Datamodel) returns (nodes: seq<SchemaNode>)
    ensures nodes == Nodes(dm)
  {
    var models := dm.models;
    nodes := [];
    var i := 0;
    while i < |models|
      invariant i <= |models| && |nodes| == i
      invariant forall k :: 0 <= k < i ==> nodes[k] == ModelNodeOf(models[k])
    {
      nodes := nodes + [ModelNodeOf(models[i])];
      i := i + 1;
    }
    i := 0;
    while i < |dm.enums|
      invariant i <= |dm.enums| && |nodes| == |models| + i
      invariant forall k :: 0 <= k < |models| ==> nodes[k] == ModelNodeOf(models[k])
      invariant forall k :: 0 <= k < i ==> nodes[|models| + k] == EnumNodeOf(dm.enums[k])
    {
      nodes := nodes + [EnumNodeOf(dm.enums[i])];
      i := i + 1;
    }
  }

  /** One model's fields, continuing the walk from the fields before them. */
  method ScanModel(models: seq<Model>, model: Model, ghost before: seq<Site>,
                   edges: seq<SchemaEdge>, processed: set<string>)
    returns (edges': seq<SchemaEdge>, processed': set<string>)
    requires Scan(edges, processed) == ScanSites(models, before)
    ensures Scan(edges', processed') == ScanSites(models, before + FieldSites(model))
  {
    edges', processed' := edges, processed;
    ghost var sites := FieldSites(model);
    assert before + sites[..0] == before;
    var fj := 0;
    while fj < |model.fields|
      invariant fj <= |model.fields|
      invariant Scan(edges', processed') == ScanSites(models, before + sites[..fj])
    {
      var field := model.fields[fj];
      ScanSnoc(models, before + sites[..fj], Site(model, field));
      assert before + sites[..fj + 1] == before + sites[..fj] + [Site(model, field)];
      if field.kind == ObjectField {
        var edge;
        edge, processed' := CreateRelationEdge(model, field, models, processed');
        if edge.Some? {
          edges' := edges' + [edge.value];
        }
      }
      if field.kind == EnumField {
        edges' := edges' + [EnumEdgeOf(model, field)];
      }
      fj := fj + 1;
    }
    assert sites[..fj] == sites;
  }

  /** `transformToGraph`: the cards, then a walk over every field of every model. */
  method TransformToGraph(dm: Datamodel) returns (nodes: seq<SchemaNode>, edges: seq<SchemaEdge>)
    ensures nodes == Nodes(dm)
    ensures edges == Edges(dm)
  {
    nodes := CreateNodes(dm);
    var models := dm.models;
    edges := [];
    var processedRelations: set<string> := {};
    var mi := 0;
    while mi < |models|
      invariant mi <= |models|
      invariant Scan(edges, processedRelations) == ScanSites(models, Sites(models, mi))
    {
      edges, processedRelations := ScanModel(models, models[mi], Sites(models, mi), edges, processedRelations);
      mi := mi + 1;
    }
  }
}
