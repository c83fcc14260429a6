/**
  The line-by-line Prisma schema scanner of the project analyser: block
  headers, field lines and block attributes are recognised with anchored
  patterns, counters are kept in a statistics record, and relation fields are
  grouped by the pair of models they connect to estimate relationship kinds.
 */
module PrismaSchema {
  import opened Strings
  import opened Wrappers
  import opened Patterns
  import opened Grouping
  import FS = FileSystem

  // ---------------------------------------------------------------------------
  // Statistics
  // ---------------------------------------------------------------------------

  datatype Relationships = Relationships(total: nat, oneToOne: nat, oneToMany: nat, manyToMany: nat, selfRelations: nat)

  datatype FieldStats = FieldStats(total: nat, required: nat, optional: nat, unique: nat, indexed: nat)

  datatype Constraints = Constraints(primaryKeys: nat, uniqueConstraints: nat, indexes: nat)

  datatype SchemaStats = SchemaStats(
    models: nat, enums: nat, views: nat, types: nat,
    relationships: Relationships, fields: FieldStats,
    fieldTypes: map<string, nat>, provider: Option<string>, generators: seq<string>,
    constraints: Constraints)

  /** A field line carrying `@relation`, kept for the relationship estimate. */
  datatype RelationField = RelationField(modelName: string, fieldName: string, fieldType: string, isArray: bool, line: string)

  datatype Context = TopLevel | InModel | InEnum | InDatasource | InGenerator

  /** The scanner's state: the loop's locals and the parts of the analysis it fills in. */
  datatype Scan = Scan(
    context: Context, modelName: Option<string>, braceDepth: int,
    stats: SchemaStats, relationFields: seq<RelationField>,
    modelNames: seq<string>, enumNames: seq<string>)

  const NoStats := SchemaStats(0, 0, 0, 0, Relationships(0, 0, 0, 0, 0), FieldStats(0, 0, 0, 0, 0),
                               map[], None, [], Constraints(0, 0, 0))

  const Start := Scan(TopLevel, None, 0, NoStats, [], [], [])

  // ---------------------------------------------------------------------------
  // Line patterns
  // ---------------------------------------------------------------------------

  /** `^kw\s+(\w+)\s*{`: the block name. */
  function Header(line: string, kw: string): (r: Option<string>)
    ensures r.Some? ==> |r.value| >= 1 && forall i :: 0 <= i < |r.value| ==> IsWordChar(r.value[i])
    ensures r.Some? ==> StartsWith(line, kw)
  {
    match KeywordSpaces(line, kw, false)
    case None => None
    case Some(u) =>
      var k := LeadingWord(u);
      var rest := u[k..];
      var m := LeadingSpaces(rest);
      if k >= 1 && m < |rest| && rest[m] == '{' then Some(u[..k]) else None
  }

  predicate IsQuote(c: char) { c == '"' || c == '\'' }

  /** `provider\s*=\s*["']` at the start of `t`: what follows the opening quote. */
  function ProviderPrefix(t: string): (r: Option<string>)
    ensures r.Some? ==> |r.value| < |t|
  {
    if !StartsWith(t, "provider") then None
    else
      var a := t[8..];
      var s := LeadingSpaces(a);
      if s < |a| && a[s] == '=' then
        var b := a[s + 1..];
        var s2 := LeadingSpaces(b);
        if s2 < |b| && IsQuote(b[s2]) then Some(b[s2 + 1..]) else None
      else None
  }

  /** `provider\s*=\s*["'](\w+)["']` at the start of `t`. */
  function ProviderWordAt(t: string): (r: Option<string>)
    ensures r.Some? ==> |r.value| >= 1
  {
    match ProviderPrefix(t)
    case None => None
    case Some(v) =>
      var k := LeadingWord(v);
      if k >= 1 && k < |v| && IsQuote(v[k]) then Some(v[..k]) else None
  }

  /** Length of the longest prefix without a quote character. */
  function LeadingUnquoted(s: string): (n: nat)
    ensures n <= |s| && (forall i :: 0 <= i < n ==> !IsQuote(s[i])) && (n < |s| ==> IsQuote(s[n]))
  {
    if s != [] && !IsQuote(s[0]) then 1 + LeadingUnquoted(s[1..]) else 0
  }

  /** `provider\s*=\s*["']([^"']+)["']` at the start of `t`. */
  function ProviderQuotedAt(t: string): (r: Option<string>)
    ensures r.Some? ==> |r.value| >= 1
  {
    match ProviderPrefix(t)
    case None => None
    case Some(v) =>
      var k := LeadingUnquoted(v);
      if k >= 1 && k < |v| then Some(v[..k]) else None
  }

  /** The capture of the leftmost match of an unanchored pattern. */
  function FirstMatch(t: string, at: string -> Option<string>): (r: Option<string>)
    decreases |t|
  {
    match at(t)
    case Some(v) => Some(v)
    case None => if t == [] then None else FirstMatch(t[1..], at)
  }

  /** The leftmost match is found at some suffix. */
  lemma {:induction false} FirstMatchFound(t: string, at: string -> Option<string>)
    requires FirstMatch(t, at).Some?
    ensures exists i :: 0 <= i <= |t| && at(t[i..]) == FirstMatch(t, at)
    decreases |t|
  {
    assert t[0..] == t;
    if at(t).None? {
      FirstMatchFound(t[1..], at);
      var i :| 0 <= i <= |t[1..]| && at(t[1..][i..]) == FirstMatch(t[1..], at);
      assert t[1..][i..] == t[i + 1..];
    }
  }

  /** A field line `^(\w+)\s+(\w+)(\[\])?(\?)?`: name, type, list marker, optional marker. */
  datatype FieldLine = FieldLine(name: string, fieldType: string, isArray: bool, isOptional: bool)

  function FieldMatch(line: string): (r: Option<FieldLine>)
    ensures r.Some? ==> |r.value.name| >= 1 && |r.value.fieldType| >= 1 && StartsWith(line, r.value.name)
  {
    var k1 := LeadingWord(line);
    var rest := line[k1..];
    var s := LeadingSpaces(rest);
    var typed := rest[s..];
    var k2 := LeadingWord(typed);
    if k1 == 0 || s == 0 || k2 == 0 then None
    else
      var after := typed[k2..];
      var isArray := StartsWith(after, "[]");
      var after2 := if isArray then after[2..] else after;
      Some(FieldLine(line[..k1], typed[..k2], isArray, StartsWith(after2, "?")))
  }

  // ---------------------------------------------------------------------------
  // One line
  // ---------------------------------------------------------------------------

  /** `line.includes(..)` tests of a `@@` line inside a model. */
  function BlockAttribute(c: Constraints, line: string): Constraints {
    Constraints(
      c.primaryKeys + (if Contains(line, "@@id") then 1 else 0),
      c.uniqueConstraints + (if Contains(line, "@@unique") then 1 else 0),
      c.indexes + (if Contains(line, "@@index") then 1 else 0))
  }

  function Bump(m: map<string, nat>, key: string): (r: map<string, nat>)
    ensures r.Keys == m.Keys + {key}
    ensures r[key] == (if key in m then m[key] else 0) + 1
    ensures forall k :: k in m && k != key ==> r[k] == m[k]
  {
    m[key := (if key in m then m[key] else 0) + 1]
  }

  /** A field line of model `model`. */
  function FieldStep(sc: Scan, model: string, line: string, f: FieldLine): Scan {
    var st := sc.stats;
    var fields := st.fields.(total := st.fields.total + 1,
                             optional := st.fields.optional + (if f.isOptional then 1 else 0),
                             required := st.fields.required + (if f.isOptional then 0 else 1),
                             unique := st.fields.unique + (if Contains(line, "@unique") then 1 else 0));
    var pk := st.constraints.primaryKeys + (if Contains(line, "@id") then 1 else 0);
    var isRelation := Contains(line, "@relation");
    var rels := if !isRelation then st.relationships
                else st.relationships.(total := st.relationships.total + 1,
                                       selfRelations := st.relationships.selfRelations + (if f.fieldType == model then 1 else 0));
    sc.(stats := st.(fields := fields, fieldTypes := Bump(st.fieldTypes, f.fieldType),
                     constraints := st.constraints.(primaryKeys := pk), relationships := rels),
        relationFields := sc.relationFields + (if isRelation then [RelationField(model, f.name, f.fieldType, f.isArray, line)] else []))
  }

  /** Everything after the block headers: provider lines, model bodies and the top-level reset. */
  function BodyStep(sc: Scan, line: string): Scan {
    var sc1 :=
      if sc.context == InDatasource && Contains(line, "provider") then
        match FirstMatch(line, ProviderWordAt)
        case Some(p) => sc.(stats := sc.stats.(provider := Some(p)))
        case None => sc
      else sc;
    var sc2 :=
      if sc1.context == InGenerator && Contains(line, "provider") then
        match FirstMatch(line, ProviderQuotedAt)
        case Some(g) => sc1.(stats := sc1.stats.(generators := sc1.stats.generators + [g]))
        case None => sc1
      else sc1;
    if sc2.context == InModel && sc2.modelName.Some? then
      if line == "}" && sc2.braceDepth == 0 then sc2.(context := TopLevel, modelName := None)
      else if StartsWith(line, "@@") then
        sc2.(stats := sc2.stats.(constraints := BlockAttribute(sc2.stats.constraints, line)))
      else
        var sc3 := match FieldMatch(line)
          case Some(f) => FieldStep(sc2, sc2.modelName.value, line, f)
          case None => sc2;
        if sc3.braceDepth == 0 && line == "}" then sc3.(context := TopLevel) else sc3
    else if sc2.braceDepth == 0 && line == "}" then sc2.(context := TopLevel)
    else sc2
  }

  predicate Skipped(line: string) {
    line == "" || StartsWith(line, "//") || StartsWith(line, "/*") || StartsWith(line, "*")
  }

  /** The block headers, each of which ends the iteration; any other line goes to `BodyStep`. */
  function HeaderStep(sc: Scan, line: string): Scan {
    match Header(line, "model")
    case Some(name) =>
      sc.(modelName := Some(name), stats := sc.stats.(models := sc.stats.models + 1),
          modelNames := sc.modelNames + [name], context := InModel)
    case None =>
    match Header(line, "enum")
    case Some(name) =>
      sc.(stats := sc.stats.(enums := sc.stats.enums + 1), enumNames := sc.enumNames + [name], context := InEnum)
    case None =>
    if Header(line, "view").Some? then sc.(stats := sc.stats.(views := sc.stats.views + 1), context := InModel)
    else if Header(line, "type").Some? then sc.(stats := sc.stats.(types := sc.stats.types + 1), context := InModel)
    else if Header(line, "datasource").Some? then sc.(context := InDatasource)
    else if Header(line, "generator").Some? then sc.(context := InGenerator)
    else BodyStep(sc, line)
  }

  /** One iteration of the scanning loop over a raw line: comments and blank lines are skipped, then the brace depth is updated. */
  function Step(sc: Scan, raw: string): Scan {
    var line := Trim(raw);
    if Skipped(line) then sc else HeaderStep(Deepen(sc, line), line)
  }

  /** `braceDepth` after the line's opening and closing braces. */
  function Deepen(sc: Scan, line: string): (r: Scan)
    ensures Consistent(sc) ==> Consistent(r)
  {
    sc.(braceDepth := sc.braceDepth + CountChar(line, '{') - CountChar(line, '}'))
  }

  /** The state after scanning `lines` in order. */
  function Run(lines: seq<string>): Scan
    decreases |lines|
  {
    if lines == [] then Start else Step(Run(lines[..|lines| - 1]), lines[|lines| - 1])
  }

  // ---------------------------------------------------------------------------
  // What the scan keeps true
  // ---------------------------------------------------------------------------

  function CountSelf(rs: seq<RelationField>): (n: nat)
    ensures n <= |rs|
  {
    if rs == [] then 0 else CountSelf(rs[..|rs| - 1]) + (if rs[|rs| - 1].fieldType == rs[|rs| - 1].modelName then 1 else 0)
  }

  /** The counters agree with the collected names and fields. */
  predicate Consistent(sc: Scan) {
    var st := sc.stats;
    st.models == |sc.modelNames| && st.enums == |sc.enumNames|
    && st.fields.total == st.fields.required + st.fields.optional
    && st.relationships.total == |sc.relationFields|
    && st.relationships.oneToOne == 0 && st.relationships.oneToMany == 0 && st.relationships.manyToMany == 0
    && st.relationships.selfRelations == CountSelf(sc.relationFields)
    && (forall t :: t in st.fieldTypes ==> st.fieldTypes[t] >= 1)
    && (sc.modelName.Some? ==> sc.modelName.value in sc.modelNames)
    && (forall i :: 0 <= i < |sc.relationFields| ==> sc.relationFields[i].modelName in sc.modelNames)
  }

  lemma FieldStepConsistent(sc: Scan, model: string, line: string, f: FieldLine)
    requires Consistent(sc) && model in sc.modelNames
    ensures Consistent(FieldStep(sc, model, line, f))
  {
    var r := FieldStep(sc, model, line, f);
    if Contains(line, "@relation") {
      var added := RelationField(model, f.name, f.fieldType, f.isArray, line);
      assert r.relationFields == sc.relationFields + [added];
      assert r.relationFields[..|r.relationFields| - 1] == sc.relationFields;
    } else {
      assert r.relationFields == sc.relationFields;
    }
  }

  lemma BodyStepConsistent(sc: Scan, line: string)
    requires Consistent(sc)
    ensures Consistent(BodyStep(sc, line))
  {
    var sc1 :=
      if sc.context == InDatasource && Contains(line, "provider") then
        match FirstMatch(line, ProviderWordAt)
        case Some(p) => sc.(stats := sc.stats.(provider := Some(p)))
        case None => sc
      else sc;
    var sc2 :=
      if sc1.context == InGenerator && Contains(line, "provider") then
        match FirstMatch(line, ProviderQuotedAt)
        case Some(g) => sc1.(stats := sc1.stats.(generators := sc1.stats.generators + [g]))
        case None => sc1
      else sc1;
    assert Consistent(sc2);
    if sc2.context == InModel && sc2.modelName.Some? && !(line == "}" && sc2.braceDepth == 0) && !StartsWith(line, "@@") {
      if FieldMatch(line).Some? {
        FieldStepConsistent(sc2, sc2.modelName.value, line, FieldMatch(line).value);
      }
    }
  }

  lemma HeaderStepConsistent(sc: Scan, line: string)
    requires Consistent(sc)
    ensures Consistent(HeaderStep(sc, line))
  {
    if Header(line, "model").None? && Header(line, "enum").None? && Header(line, "view").None?
       && Header(line, "type").None? && Header(line, "datasource").None? && Header(line, "generator").None? {
      BodyStepConsistent(sc, line);
    }
  }

  lemma StepConsistent(sc: Scan, raw: string)
    requires Consistent(sc)
    ensures Consistent(Step(sc, raw))
  {
    var line := Trim(raw);
    if !Skipped(line) {
      HeaderStepConsistent(Deepen(sc, line), line);
    }
  }

  lemma {:induction false} RunConsistent(lines: seq<string>)
    ensures Consistent(Run(lines))
    decreases |lines|
  {
    if lines != [] {
      RunConsistent(lines[..|lines| - 1]);
      StepConsistent(Run(lines[..|lines| - 1]), lines[|lines| - 1]);
    }
  }

  /** Comment and blank lines leave the state as it was. */
  lemma CommentLinesIgnored(sc: Scan, raw: string)
    requires StartsWith(Trim(raw), "//")
    ensures Step(sc, raw) == sc
  {
  }

  // ---------------------------------------------------------------------------
  // Relationship kinds
  // ---------------------------------------------------------------------------

  /** `[modelName, fieldType].sort().join("-")` */
  function PairKey(r: RelationField): string {
    if LexLe(r.modelName, r.fieldType) then r.modelName + "-" + r.fieldType else r.fieldType + "-" + r.modelName
  }

  /** The key does not depend on which side declares the field. */
  lemma PairKeySymmetric(a: RelationField, b: RelationField)
    requires a.modelName == b.fieldType && a.fieldType == b.modelName
    ensures PairKey(a) == PairKey(b)
  {
    LexLeTotal(a.modelName, a.fieldType);
    if LexLe(a.modelName, a.fieldType) && LexLe(a.fieldType, a.modelName) {
      LexLeAntisym(a.modelName, a.fieldType);
    }
  }

  datatype RelationKind = OneToOne | OneToMany | ManyToMany | Unclassified

  /** One side gives one-to-many for a list and one-to-one otherwise; two sides are classified by their lists; more are not counted. */
  function KindOf(group: seq<RelationField>): RelationKind {
    if |group| == 1 then (if group[0].isArray then OneToMany else OneToOne)
    else if |group| == 2 then
      if group[0].isArray && group[1].isArray then ManyToMany
      else if group[0].isArray || group[1].isArray then OneToMany
      else OneToOne
    else Unclassified
  }

  function Tally(c: Relationships, k: RelationKind): Relationships {
    match k
    case OneToOne => c.(oneToOne := c.oneToOne + 1)
    case OneToMany => c.(oneToMany := c.oneToMany + 1)
    case ManyToMany => c.(manyToMany := c.manyToMany + 1)
    case Unclassified => c
  }

  function TallyAll(c: Relationships, keys: seq<string>, rs: seq<RelationField>): Relationships
    decreases |keys|
  {
    if keys == [] then c else Tally(TallyAll(c, keys[..|keys| - 1], rs), KindOf(Group(rs, PairKey, keys[|keys| - 1])))
  }

  /** Number of keys whose group has one or two fields. */
  function Classified(keys: seq<string>, rs: seq<RelationField>): (n: nat)
    ensures n <= |keys|
    decreases |keys|
  {
    if keys == [] then 0
    else Classified(keys[..|keys| - 1], rs) + (if |Group(rs, PairKey, keys[|keys| - 1])| in {1, 2} then 1 else 0)
  }

  /** Exactly the groups with one or two sides are counted, once each; the other counters are untouched. */
  lemma {:induction false} TallyCounts(c: Relationships, keys: seq<string>, rs: seq<RelationField>)
    ensures var t := TallyAll(c, keys, rs);
      t.oneToOne + t.oneToMany + t.manyToMany == c.oneToOne + c.oneToMany + c.manyToMany + Classified(keys, rs)
      && t.total == c.total && t.selfRelations == c.selfRelations
    decreases |keys|
  {
    if keys != [] {
      TallyCounts(c, keys[..|keys| - 1], rs);
    }
  }

  /**
    `analyzeRelationshipTypes`: groups the relation fields by model pair,
    then classifies each group and adds it to the counters.
   */
  method AnalyzeRelationshipTypes(rs: seq<RelationField>, counts: Relationships) returns (r: Relationships)
    ensures r == TallyAll(counts, Keys(rs, PairKey), rs)
  {
    var pairs, order := Collect(rs, PairKey);
    r := TallyGroups(counts, order, pairs, rs);
  }

  /** The second loop of `analyzeRelationshipTypes`, over the groups in key order. */
  method TallyGroups(counts: Relationships, order: seq<string>, pairs: map<string, seq<RelationField>>, rs: seq<RelationField>)
    returns (r: Relationships)
    requires forall k :: k in order ==> k in pairs && pairs[k] == Group(rs, PairKey, k)
    ensures r == TallyAll(counts, order, rs)
  {
    r := counts;
    for j := 0 to |order|
      invariant r == TallyAll(counts, order[..j], rs)
    {
      var k := order[j];
      assert order[..j + 1] == order[..j] + [k];
      r := Tally(r, KindOf(pairs[k]));
    }
    assert order[..|order|] == order;
  }

  // ---------------------------------------------------------------------------
  // Indexed fields
  // ---------------------------------------------------------------------------

  /** `@@index\(\[([^\]]+)\]` at the start of `t`: the captured field list and the match length. */
  function IndexAt(t: string): (r: Option<(string, nat)>)
    ensures r.Some? ==> 0 < r.value.1 <= |t| && t[..r.value.1] == "@@index([" + r.value.0 + "]"
  {
    if !StartsWith(t, "@@index([") then None
    else
      var rest := t[9..];
      var k := IndexOf(rest, ']');
      if k >= 1 && k < |rest| then
        assert t[..10 + k] == t[..9] + rest[..k] + "]";
        Some((rest[..k], 10 + k))
      else None
  }

  /**
    The indexed-field estimate: for each match of the global `@@index`
    pattern, the number of `\w+` runs in the match minus one (for "index"),
    which is the number of word runs in the captured list.
   */
  function IndexedFields(t: string): nat
    decreases |t|
  {
    if t == [] then 0
    else match IndexAt(t)
      case Some((group, len)) => WordRuns(group) + IndexedFields(t[len..])
      case None => IndexedFields(t[1..])
  }

  lemma {:induction false} WordRunsNonWordSuffix(s: string, c: char)
    requires !IsWordChar(c)
    ensures WordRuns(s + [c]) == WordRuns(s)
    decreases |s|
  {
    if s == [] {
      assert WordRuns([c]) == WordRuns([c][1..]);
    } else if IsWordChar(s[0]) {
      var k := LeadingWord(s);
      LeadingWordSnoc(s, c);
      assert (s + [c])[k..] == s[k..] + [c];
      WordRunsNonWordSuffix(s[k..], c);
    } else {
      assert (s + [c])[1..] == s[1..] + [c];
      WordRunsNonWordSuffix(s[1..], c);
    }
  }

  lemma {:induction false} LeadingWordSnoc(s: string, c: char)
    requires !IsWordChar(c)
    ensures LeadingWord(s + [c]) == LeadingWord(s)
    decreases |s|
  {
    if s != [] && IsWordChar(s[0]) {
      assert (s + [c])[1..] == s[1..] + [c];
      LeadingWordSnoc(s[1..], c);
    }
  }

  /** The match "@@index([" + g + "]" has exactly one word run more than `g`. */
  lemma IndexMatchWords(g: string)
    ensures WordRuns("@@index([" + g + "]") == 1 + WordRuns(g)
  {
    var m3 := "([" + (g + "]");
    IndexMatchShape(g);
    SkipNonWords("@@", "index" + m3);
    IndexWord(m3);
    SkipNonWords("([", g + "]");
    WordRunsNonWordSuffix(g, ']');
  }

  lemma IndexMatchShape(g: string)
    ensures "@@index([" + g + "]" == "@@" + ("index" + ("([" + (g + "]")))
  {
  }

  /** Characters outside `\w` in front of a text add no word run. */
  lemma {:induction false} SkipNonWords(p: string, s: string)
    requires forall i :: 0 <= i < |p| ==> !IsWordChar(p[i])
    ensures WordRuns(p + s) == WordRuns(s)
    decreases |p|
  {
    if p == [] {
      assert p + s == s;
    } else {
      assert (p + s)[0] == p[0] && (p + s)[1..] == p[1..] + s;
      SkipNonWords(p[1..], s);
    }
  }

  lemma IndexWord(s: string)
    requires s != [] && !IsWordChar(s[0])
    ensures WordRuns("index" + s) == 1 + WordRuns(s)
  {
    var t := "index" + s;
    assert t[..5] == "index" && t[5] == s[0];
    LeadingWordIs(t, 5);
    assert t[5..] == s;
  }

  // ---------------------------------------------------------------------------
  // The whole file
  // ---------------------------------------------------------------------------

  /** What `analyzePrismaSchema` returns: nothing for a missing file, a failure record, or the analysis. */
  datatype SchemaAnalysis =
    | NoSchema
    | SchemaFailed(fileName: string, filePath: string)
    | Analysis(fileName: string, filePath: string, lineCount: nat, stats: SchemaStats,
               modelNames: seq<string>, enumNames: seq<string>)

  function BaseName(p: FS.Path): string {
    if p == [] then "" else p[|p| - 1]
  }

  /** The analysis of a readable schema text, as a function of its lines. */
  function AnalysisOf(p: FS.Path, content: string): (r: SchemaAnalysis)
    ensures r.Analysis?
  {
    var lines := Split(content, '\n');
    var sc := Run(lines);
    Assemble(p, |lines|, sc, TallyAll(sc.stats.relationships, Keys(sc.relationFields, PairKey), sc.relationFields), IndexedFields(content))
  }

  /** The analysis of a scanned schema, with the tallied relationships and the `@@index` fields added. */
  function Assemble(p: FS.Path, lineCount: nat, sc: Scan, rels: Relationships, indexed: nat): (r: SchemaAnalysis)
    ensures r.Analysis? && r.stats.relationships == rels && r.modelNames == sc.modelNames
  {
    var fields := sc.stats.fields.(indexed := sc.stats.fields.indexed + indexed);
    Analysis(BaseName(p), FS.Render(p), lineCount, sc.stats.(relationships := rels, fields := fields), sc.modelNames, sc.enumNames)
  }

  /** The counters of the finished analysis agree with each other and with the collected names. */
  predicate CountsAgree(r: SchemaAnalysis)
    requires r.Analysis?
  {
    var st := r.stats;
    st.models == |r.modelNames| && st.enums == |r.enumNames|
    && st.fields.total == st.fields.required + st.fields.optional
    && st.relationships.selfRelations <= st.relationships.total
    && st.relationships.oneToOne + st.relationships.oneToMany + st.relationships.manyToMany <= st.relationships.total
  }

  lemma AnalysisCounts(p: FS.Path, content: string)
    ensures CountsAgree(AnalysisOf(p, content))
  {
    var lines := Split(content, '\n');
    var sc := Run(lines);
    RunConsistent(lines);
    TallyCounts(sc.stats.relationships, Keys(sc.relationFields, PairKey), sc.relationFields);
  }

  /** The scanning loop of `analyzePrismaSchema`. */
  method ScanLines(lines: seq<string>) returns (sc: Scan)
    ensures sc == Run(lines)
  {
    sc := Start;
    for i := 0 to |lines|
      invariant sc == Run(lines[..i])
    {
      assert lines[..i + 1][..i] == lines[..i];
      sc := Step(sc, lines[i]);
    }
    assert lines[..|lines|] == lines;
  }

  /** `analyzePrismaSchema` over the file system. */
  method AnalyzePrismaSchema(fs: FS.Entry, p: FS.Path) returns (r: SchemaAnalysis)
    ensures r.NoSchema? <==> !FS.Exists(fs, p)
    ensures r.SchemaFailed? <==> FS.ReadFile(fs, p).Unreadable?
    ensures r.Analysis? ==> r == AnalysisOf(p, FS.ReadFile(fs, p).text) && CountsAgree(r)
  {
    var file := FS.ReadFile(fs, p);
    if file.Missing? {
      return NoSchema;
    }
    if file.Unreadable? {
      return SchemaFailed(BaseName(p), FS.Render(p));
    }
    r := AnalyzeContent(p, file.text);
  }

  /** The analysis of a schema text that was read. */
  method AnalyzeContent(p: FS.Path, content: string) returns (r: SchemaAnalysis)
    ensures r == AnalysisOf(p, content) && CountsAgree(r)
  {
    r := AssembleAnalysis(p, content);
    AnalysisCounts(p, content);
  }

  /** The line scan, the relationship tally and the index count, put together. */
  method AssembleAnalysis(p: FS.Path, content: string) returns (r: SchemaAnalysis)
    ensures r == AnalysisOf(p, content)
  {
    var lines := Split(content, '\n');
    var sc := ScanLines(lines);
    var rels := AnalyzeRelationshipTypes(sc.relationFields, sc.stats.relationships);
    var indexed := IndexedFields(content);
    r := Assemble(p, |lines|, sc, rels, indexed);
  }
}
