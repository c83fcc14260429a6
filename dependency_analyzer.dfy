/**
  The dependency analyser: the import-like nodes of one JavaScript or
  TypeScript file become dependency records, each record is resolved to a
  local file (relative, `@/` alias or project-relative specifier) or to an
  external package, and the records are split by locality with each side
  sorted by name.

  The parser is replaced by the nodes its traversal visits, in visiting
  order. md5 is a caller-supplied function `md5` from text to its hex
  digest, and every random id (`generateShortId`) is a value supplied with
  the node it is drawn for or, for the per-record `uiId`, by a function of
  the record's position.
 */
module DependencyAnalyzer {
  import opened Strings
  import opened Wrappers
  import opened FileSystem
  import Paths
  import opened Geometry

  /** `s.substring(0, n)` */
  function Prefix(s: string, n: nat): (r: string)
    ensures StartsWith(s, r) && |r| == (if |s| < n then |s| else n)
  {
    if |s| <= n then s else s[..n]
  }

  // ---------------------------------------------------------------------------
  // Nodes and raw records
  // ---------------------------------------------------------------------------

  /**
    An import or export specifier: its node type, the names of its `local`,
    `imported` and `exported` identifiers where it has them, and the random
    id drawn for it.
   */
  datatype SpecifierNode = SpecifierNode(kind: string, local: Option<string>, imported: Option<string>, exported: Option<string>, drawnId: string)

  datatype Callee = ImportCallee | Identifier(name: string) | OtherCallee

  datatype Argument = StringLiteral(value: string) | OtherArgument

  /**
    The nodes the visitor handles, with what it reads from them. `drawnId`
    is the random `nodeId` drawn when a record is built from the node.
   */
  datatype Statement =
    | ImportDeclaration(source: string, importKind: Option<string>, specifiers: seq<SpecifierNode>, drawnId: string)
    | CallExpression(callee: Callee, arguments: seq<Argument>, drawnId: string)
    | ExportNamedDeclaration(exportSource: Option<string>, specifiers: seq<SpecifierNode>, drawnId: string)
    | ExportAllDeclaration(source: string, drawnId: string)

  datatype Specifier =
    | ImportedName(kind: string, local: Option<string>, imported: Option<string>, id: string)
    | ExportedName(kind: string, local: Option<string>, exported: Option<string>, id: string)

  /**
    A record as the traversal adds it to its set. `source` is `None` where
    the code stores `undefined`.
   */
  datatype RawDependency = RawDependency(source: Option<string>, kind: string, importKind: string, specifiers: seq<Specifier>, id: string, nodeId: string)

  /** `a || b` on optional names: an absent or empty name falls back to `b`. */
  function OrElse(a: Option<string>, b: Option<string>): (r: Option<string>)
    ensures r == a || r == b
    ensures a.Some? && a.value != "" ==> r == a
  {
    if a.Some? && a.value != "" then a else b
  }

  /** `generateDependencyId`: the first 12 hex digits of the md5 of `source-type-file`. */
  function DependencyId(md5: string -> string, sourceText: string, kind: string, file: Path): (id: string)
    ensures |id| <= 12
  {
    Prefix(md5(sourceText + "-" + kind + "-" + Render(file)), 12)
  }

  function ImportSpecifier(s: SpecifierNode): Specifier {
    ImportedName(s.kind, s.local, OrElse(s.imported, s.local), s.drawnId)
  }

  function ExportSpecifier(s: SpecifierNode): Specifier {
    ExportedName(s.kind, s.local, s.exported, s.drawnId)
  }

  /** A dynamic `import("x")` or a `require("x")` call with a string literal first argument. */
  predicate LiteralCall(callee: Callee, arguments: seq<Argument>, wanted: Callee) {
    callee == wanted && |arguments| > 0 && arguments[0].StringLiteral?
  }

  /**
    The records one visited node adds: one for every import and `export *`,
    one for an `export ... from`, one for an `import("x")` or `require("x")`
    call, none for anything else. Each record hashes the specifier text with
    its own type, and carries the node's drawn id.
   */
  function RecordsOf(st: Statement, file: Path, md5: string -> string): (r: seq<RawDependency>)
    ensures |r| <= 1
    ensures |r| == 1 <==>
      (st.ImportDeclaration? || st.ExportAllDeclaration?
       || (st.ExportNamedDeclaration? && st.exportSource.Some?)
       || (st.CallExpression? && (LiteralCall(st.callee, st.arguments, ImportCallee)
                                  || LiteralCall(st.callee, st.arguments, Identifier("require")))))
    ensures forall d :: d in r ==> d.nodeId == st.drawnId
    ensures st.ImportDeclaration? ==>
      r[0].source == Some(st.source) && r[0].kind == "import"
      && r[0].importKind == (if st.importKind.Some? && st.importKind.value != "" then st.importKind.value else "value")
      && |r[0].specifiers| == |st.specifiers| && r[0].id == DependencyId(md5, st.source, "import", file)
    ensures st.CallExpression? && |r| == 1 ==>
      |st.arguments| > 0 && r[0].source == Some(st.arguments[0].value) && r[0].specifiers == []
      && r[0].kind == (if st.callee == ImportCallee then "dynamic-import" else "require")
      && r[0].id == DependencyId(md5, st.arguments[0].value, r[0].kind, file)
    ensures st.ExportNamedDeclaration? && |r| == 1 ==>
      r[0].source == st.exportSource && r[0].kind == "export-from"
      && |r[0].specifiers| == |st.specifiers| && r[0].id == DependencyId(md5, st.exportSource.value, "export-from", file)
    ensures st.ExportAllDeclaration? ==>
      r[0].source.None? && r[0].kind == "export-all-from" && r[0].specifiers == []
      && r[0].id == DependencyId(md5, st.source, "export-all-from", file)
  {
    match st
    case ImportDeclaration(source, importKind, specs, drawn) =>
      [RawDependency(Some(source), "import", OrElse(importKind, Some("value")).value,
                     seq(|specs|, i requires 0 <= i < |specs| => ImportSpecifier(specs[i])),
                     DependencyId(md5, source, "import", file), drawn)]
    case CallExpression(callee, args, drawn) =>
      (if LiteralCall(callee, args, ImportCallee) then
         [RawDependency(Some(args[0].value), "dynamic-import", "value", [],
                        DependencyId(md5, args[0].value, "dynamic-import", file), drawn)]
       else [])
      + (if LiteralCall(callee, args, Identifier("require")) then
           [RawDependency(Some(args[0].value), "require", "value", [],
                          DependencyId(md5, args[0].value, "require", file), drawn)]
         else [])
    case ExportNamedDeclaration(source, specs, drawn) =>
      if source.None? then []
      else [RawDependency(source, "export-from", "value",
                          seq(|specs|, i requires 0 <= i < |specs| => ExportSpecifier(specs[i])),
                          DependencyId(md5, source.value, "export-from", file), drawn)]
    case ExportAllDeclaration(source, drawn) =>
      // `source` already holds the specifier text, so `source.value` reads nothing
      [RawDependency(None, "export-all-from", "value", [], DependencyId(md5, source, "export-all-from", file), drawn)]
  }

  /** What `visit` adds for each statement, in visiting order. */
  function Traverse(stmts: seq<Statement>, visit: Statement -> seq<RawDependency>): seq<RawDependency>
    decreases |stmts|
  {
    if stmts == [] then []
    else Traverse(stmts[..|stmts| - 1], visit) + visit(stmts[|stmts| - 1])
  }

  lemma TraverseSnoc(stmts: seq<Statement>, st: Statement, visit: Statement -> seq<RawDependency>)
    ensures Traverse(stmts + [st], visit) == Traverse(stmts, visit) + visit(st)
  {
    assert (stmts + [st])[..|stmts|] == stmts;
  }

  lemma {:induction false} TraverseLength(stmts: seq<Statement>, visit: Statement -> seq<RawDependency>)
    requires forall st :: |visit(st)| <= 1
    ensures |Traverse(stmts, visit)| <= |stmts|
    decreases |stmts|
  {
    if stmts != [] {
      TraverseLength(stmts[..|stmts| - 1], visit);
    }
  }

  /** The records of the whole traversal, in visiting order; the set keeps every fresh record. */
  function Dependencies(stmts: seq<Statement>, file: Path, md5: string -> string): (r: seq<RawDependency>)
    ensures |r| <= |stmts|
  {
    TraverseLength(stmts, st => RecordsOf(st, file, md5));
    Traverse(stmts, st => RecordsOf(st, file, md5))
  }

  lemma DependenciesSnoc(stmts: seq<Statement>, st: Statement, file: Path, md5: string -> string)
    ensures Dependencies(stmts + [st], file, md5) == Dependencies(stmts, file, md5) + RecordsOf(st, file, md5)
  {
    TraverseSnoc(stmts, st, s => RecordsOf(s, file, md5));
  }

  /** The traversal: each visited node adds its records to the set. */
  method CollectDependencies(stmts: seq<Statement>, file: Path, md5: string -> string) returns (deps: seq<RawDependency>)
    ensures deps == Dependencies(stmts, file, md5)
  {
    deps := [];
    for i := 0 to |stmts|
      invariant deps == Dependencies(stmts[..i], file, md5)
    {
      DependenciesSnoc(stmts[..i], stmts[i], file, md5);
      assert stmts[..i + 1] == stmts[..i] + [stmts[i]];
      deps := deps + RecordsOf(stmts[i], file, md5);
    }
    assert stmts[..|stmts|] == stmts;
  }

  /** The records of consecutive node lists follow one another. */
  lemma {:induction false} TraverseAppend(a: seq<Statement>, b: seq<Statement>, visit: Statement -> seq<RawDependency>)
    ensures Traverse(a + b, visit) == Traverse(a, visit) + Traverse(b, visit)
    decreases |b|
  {
    if b == [] {
      assert a + b == a;
    } else {
      var pre := b[..|b| - 1];
      var last := b[|b| - 1];
      assert a + b == (a + pre) + [last];
      assert b == pre + [last];
      TraverseAppend(a, pre, visit);
      TraverseSnoc(a + pre, last, visit);
      TraverseSnoc(pre, last, visit);
    }
  }

  lemma DependenciesAppend(a: seq<Statement>, b: seq<Statement>, file: Path, md5: string -> string)
    ensures Dependencies(a + b, file, md5) == Dependencies(a, file, md5) + Dependencies(b, file, md5)
  {
    TraverseAppend(a, b, st => RecordsOf(st, file, md5));
  }

  /**
    The id depends only on source, type and file: two identical import
    declarations give two records with the same id, and both are kept.
   */
  lemma DuplicateImportsKept(s1: Statement, s2: Statement, file: Path, md5: string -> string)
    requires s1.ImportDeclaration? && s2.ImportDeclaration? && s1.source == s2.source
    ensures var r := Dependencies([s1, s2], file, md5);
      |r| == 2 && r[0].id == r[1].id && r[0].nodeId == s1.drawnId && r[1].nodeId == s2.drawnId
  {
    DependenciesSnoc([], s1, file, md5);
    DependenciesSnoc([s1], s2, file, md5);
    assert [s1] + [s2] == [s1, s2];
  }

  /** An `export * from` record stores no source, though its id hashes the specifier. */
  lemma ExportAllLosesSource(st: Statement, file: Path, md5: string -> string)
    requires st.ExportAllDeclaration?
    ensures var r := RecordsOf(st, file, md5);
      |r| == 1 && r[0].source.None? && r[0].kind == "export-all-from"
      && r[0].id == DependencyId(md5, st.source, "export-all-from", file)
  {
  }

  /** Every other record keeps the specifier text as its source. */
  lemma SourcesKept(st: Statement, file: Path, md5: string -> string)
    requires !st.ExportAllDeclaration?
    ensures forall d :: d in RecordsOf(st, file, md5) ==> d.source.Some?
    ensures st.ImportDeclaration? ==> RecordsOf(st, file, md5)[0].source == Some(st.source)
  {
  }

  // ---------------------------------------------------------------------------
  // Finding the file behind a path
  // ---------------------------------------------------------------------------

  const Extensions: seq<string> := ["", ".js", ".jsx", ".ts", ".tsx", ".json", ".mjs", ".cjs"]
  const IndexFiles: seq<string> := ["index.js", "index.jsx", "index.ts", "index.tsx"]

  /** The index of the first path that passes `ok`, if any. */
  function FirstWhere(ps: seq<Path>, ok: Path -> bool): (r: Option<nat>)
    ensures r.Some? ==> r.value < |ps| && ok(ps[r.value]) && forall j :: 0 <= j < r.value ==> !ok(ps[j])
    ensures r.None? ==> forall j :: 0 <= j < |ps| ==> !ok(ps[j])
    decreases |ps|
  {
    if ps == [] then None
    else if ok(ps[0]) then Some(0)
    else match FirstWhere(ps[1..], ok)
      case None => None
      case Some(k) => Some(k + 1)
  }

  /** `basePath + ext` for each extension, in order. */
  function ExtCandidates(base: Path): (r: seq<Path>)
    ensures |r| == |Extensions| && r[0] == base
  {
    seq(|Extensions|, i requires 0 <= i < |Extensions| => AppendExt(base, Extensions[i]))
  }

  /** `basePath + "/index.…"` for each index file, in order. */
  function IndexCandidates(base: Path): (r: seq<Path>)
    ensures |r| == |IndexFiles|
  {
    seq(|IndexFiles|, i requires 0 <= i < |IndexFiles| => base + [IndexFiles[i]])
  }

  /**
    `findActualFile`: the first candidate with an extension that is a
    regular file; failing that, when the base is a directory, the first
    index file that exists; otherwise nothing.
   */
  function FindFile(fs: Entry, base: Path): (r: Option<Path>)
    ensures r.Some? ==> Exists(fs, r.value)
  {
    var exact := ExtCandidates(base);
    match FirstWhere(exact, q => IsFile(fs, q))
    case Some(i) => Some(exact[i])
    case None =>
      if !IsDirectory(fs, base) then None
      else
        var index := IndexCandidates(base);
        match FirstWhere(index, q => Exists(fs, q))
        case Some(j) => Some(index[j])
        case None => None
  }

  /** The search order: a file with an extension always beats an index file, and a non-directory never yields one. */
  lemma FindFileOrder(fs: Entry, base: Path)
    ensures (exists i :: 0 <= i < |Extensions| && IsFile(fs, ExtCandidates(base)[i])) ==>
      exists i :: 0 <= i < |Extensions| && FindFile(fs, base) == Some(ExtCandidates(base)[i])
        && IsFile(fs, ExtCandidates(base)[i])
        && forall j :: 0 <= j < i ==> !IsFile(fs, ExtCandidates(base)[j])
    ensures FindFile(fs, base).None? <==>
      (forall i :: 0 <= i < |Extensions| ==> !IsFile(fs, ExtCandidates(base)[i]))
      && (IsDirectory(fs, base) ==> forall j :: 0 <= j < |IndexFiles| ==> !Exists(fs, IndexCandidates(base)[j]))
  {
    var exact := ExtCandidates(base);
    var first := FirstWhere(exact, q => IsFile(fs, q));
    if first.Some? {
      assert FindFile(fs, base) == Some(exact[first.value]);
    }
  }

  /** The loops of `findActualFile`, returning at the first hit. */
  method FindActualFile(fs: Entry, base: Path) returns (r: Option<Path>)
    ensures r == FindFile(fs, base)
  {
    var exact := ExtCandidates(base);
    for i := 0 to |Extensions|
      invariant forall j :: 0 <= j < i ==> !IsFile(fs, exact[j])
    {
      if IsFile(fs, exact[i]) {
        assert FirstWhere(exact, q => IsFile(fs, q)) == Some(i);
        return Some(exact[i]);
      }
    }
    assert FirstWhere(exact, q => IsFile(fs, q)) == None;
    if IsDirectory(fs, base) {
      var index := IndexCandidates(base);
      for i := 0 to |IndexFiles|
        invariant forall j :: 0 <= j < i ==> !Exists(fs, index[j])
      {
        if Exists(fs, index[i]) {
          assert FirstWhere(index, q => Exists(fs, q)) == Some(i);
          return Some(index[i]);
        }
      }
      assert FirstWhere(index, q => Exists(fs, q)) == None;
    }
    return None;
  }

  // ---------------------------------------------------------------------------
  // Package names and resolution
  // ---------------------------------------------------------------------------

  /** `extractPackageName`: the first two "/" parts of a scoped specifier, else the first part. */
  function PackageName(importPath: string): (name: string)
  {
    var parts := Split(importPath, '/');
    if StartsWith(importPath, "@") then Join(parts[..if |parts| < 2 then |parts| else 2], "/")
    else parts[0]
  }

  /** An unscoped package name is the specifier up to its first "/". */
  lemma UnscopedPackageName(importPath: string)
    requires !StartsWith(importPath, "@")
    ensures var name := PackageName(importPath);
      StartsWith(importPath, name) && '/' !in name && (|name| < |importPath| ==> importPath[|name|] == '/')
  {
    SplitFirst(importPath, '/');
  }

  /** A scoped package name is the specifier up to its second "/": it holds at most one "/". */
  lemma ScopedPackageName(importPath: string)
    requires StartsWith(importPath, "@")
    ensures var name := PackageName(importPath);
      StartsWith(importPath, name) && CountChar(name, '/') <= 1
      && (|name| < |importPath| ==> importPath[|name|] == '/' && CountChar(name, '/') == 1)
  {
    var parts := Split(importPath, '/');
    SplitFirst(importPath, '/');
    if '/' !in importPath {
      assert PackageName(importPath) == parts[0];
      assert |parts[0]| == |importPath|;
    } else {
      SplitAtFirst(importPath, '/');
      var i := |parts[0]|;
      var rest := importPath[i + 1..];
      var tail := Split(rest, '/');
      assert parts == [importPath[..i]] + tail;
      assert parts[..2] == [importPath[..i], tail[0]];
      assert Join(parts[..2], "/") == importPath[..i] + "/" + tail[0];
      ScopedTwoParts(importPath, i, tail);
    }
  }

  /** The text before the first "/", the "/", and the first part after it: a prefix with one "/". */
  lemma ScopedTwoParts(importPath: string, i: nat, tail: seq<string>)
    requires i < |importPath| && importPath[i] == '/' && '/' !in importPath[..i]
    requires tail == Split(importPath[i + 1..], '/')
    ensures var name := importPath[..i] + "/" + tail[0];
      StartsWith(importPath, name) && CountChar(name, '/') == 1
      && (|name| < |importPath| ==> importPath[|name|] == '/')
  {
    var rest := importPath[i + 1..];
    SplitFirst(rest, '/');
    var name := importPath[..i] + "/" + tail[0];
    assert name == importPath[..i + 1 + |tail[0]|];
    OneSlash(importPath[..i], tail[0]);
  }

  lemma OneSlash(a: string, b: string)
    requires '/' !in a && '/' !in b
    ensures CountChar(a + "/" + b, '/') == 1
  {
    var t := "/" + b;
    assert t[0] == '/' && t[1..] == b;
    assert CountChar(t, '/') == 1 + CountChar(b, '/');
    CountCharAppend(a, t, '/');
    assert a + "/" + b == a + t;
  }

  lemma PackageNameDeepScope()
    ensures PackageName("@a/b/c") == "@a/b"
  {
    ScopedPackageName("@a/b/c");
    var n := PackageName("@a/b/c");
    assert n == "@a/b/c"[..|n|];
    assert "@a/b/c"[..4] == "@a/b";
  }

  lemma PackageNameBareScope()
    ensures PackageName("@a") == "@a"
  {
    ScopedPackageName("@a");
  }

  lemma PackageNameDeepPath()
    ensures PackageName("a/b/c") == "a"
  {
    UnscopedPackageName("a/b/c");
    var n := PackageName("a/b/c");
    assert n == "a/b/c"[..|n|];
  }

  /** How a specifier resolves; `isAlias` is set only for "@/" specifiers. */
  datatype Resolution =
    | Local(resolvedPath: string, fileExists: bool, relativePath: string, isAlias: bool, pathId: string)
    | External(resolvedPath: string, packageName: string, packageId: string)

  /** A local resolution at `p`: the file found there, else `p` itself. */
  function LocalAt(fs: Entry, p: Path, projectRoot: Path, alias: bool, md5: string -> string): (r: Resolution)
    ensures r.Local? && r.isAlias == alias
    ensures r.fileExists <==> FindFile(fs, p).Some?
    ensures r.fileExists ==> exists q :: Exists(fs, q) && r.resolvedPath == Render(q)
  {
    var found := FindFile(fs, p);
    var target := if found.Some? then found.value else p;
    Local(Render(target), found.Some?, Relative(projectRoot, target), alias, Prefix(md5(Render(target)), 8))
  }

  /** `resolveDependencyPath` */
  function ResolveDependencyPath(fs: Entry, importPath: string, currentDir: Path, projectRoot: Path, md5: string -> string): (r: Resolution)
    ensures StartsWith(importPath, ".") || StartsWith(importPath, "@/") ==> r.Local?
    ensures r.External? ==> r.resolvedPath == importPath && r.packageName == PackageName(importPath)
    ensures r.Local? ==> (r.isAlias <==> !StartsWith(importPath, ".") && StartsWith(importPath, "@/"))
  {
    if StartsWith(importPath, ".") then LocalAt(fs, Resolve(currentDir, importPath), projectRoot, false, md5)
    else if StartsWith(importPath, "@/") then LocalAt(fs, Resolve(projectRoot, importPath[2..]), projectRoot, true, md5)
    else
      var candidate := Resolve(projectRoot, importPath);
      if Exists(fs, candidate) || FindFile(fs, candidate).Some? then LocalAt(fs, candidate, projectRoot, false, md5)
      else
        var name := PackageName(importPath);
        External(importPath, name, Prefix(md5(name), 8))
  }

  /** The three kinds of specifier and what each resolves to. */
  lemma ResolutionCases(fs: Entry, importPath: string, currentDir: Path, projectRoot: Path, md5: string -> string)
    ensures var r := ResolveDependencyPath(fs, importPath, currentDir, projectRoot, md5);
      (StartsWith(importPath, ".") ==>
         r.Local? && !r.isAlias && (r.fileExists <==> FindFile(fs, Resolve(currentDir, importPath)).Some?))
      && (StartsWith(importPath, "@/") ==>
            r.Local? && r.isAlias && (r.fileExists <==> FindFile(fs, Resolve(projectRoot, importPath[2..])).Some?))
      && (!StartsWith(importPath, ".") && !StartsWith(importPath, "@/") ==>
            var candidate := Resolve(projectRoot, importPath);
            (r.Local? <==> Exists(fs, candidate) || FindFile(fs, candidate).Some?)
            && (r.Local? ==> !r.isAlias && (r.fileExists <==> FindFile(fs, candidate).Some?))
            && (r.External? ==> r.resolvedPath == importPath && r.packageName == PackageName(importPath)))
  {
    if StartsWith(importPath, "@/") {
      assert importPath[0] == '@';
      assert !StartsWith(importPath, ".");
    }
  }

  /** A resolution marked as existing names a path that exists. */
  lemma ResolvedExists(fs: Entry, importPath: string, currentDir: Path, projectRoot: Path, md5: string -> string)
    ensures var r := ResolveDependencyPath(fs, importPath, currentDir, projectRoot, md5);
      r.Local? && r.fileExists ==> exists q :: Exists(fs, q) && r.resolvedPath == Render(q)
  {
  }

  /** An existing directory with no index file and no same-named file is local yet missing. */
  lemma DirectoryWithoutIndex(fs: Entry, importPath: string, currentDir: Path, projectRoot: Path, md5: string -> string)
    requires !StartsWith(importPath, ".") && !StartsWith(importPath, "@/")
    requires Exists(fs, Resolve(projectRoot, importPath)) && FindFile(fs, Resolve(projectRoot, importPath)).None?
    ensures var r := ResolveDependencyPath(fs, importPath, currentDir, projectRoot, md5);
      r.Local? && !r.fileExists && r.resolvedPath == Render(Resolve(projectRoot, importPath))
  {
  }

  // ---------------------------------------------------------------------------
  // Categorising
  // ---------------------------------------------------------------------------

  /** What categorising reads besides the records. */
  datatype Env = Env(fs: Entry, currentDir: Path, projectRoot: Path, md5: string -> string, uiIds: nat -> string)

  datatype DependencyInfo = DependencyInfo(
    name: string, kind: string, importKind: string, specifiers: seq<Specifier>,
    id: string, nodeId: string, uiId: string, resolution: Resolution)

  predicate IsLocal(d: DependencyInfo) { d.resolution.Local? }

  function NameOf(d: DependencyInfo): string { d.name }

  /** The message of the `TypeError` that `undefined.startsWith` raises. */
  const UndefinedStartsWith: string := "Cannot read properties of undefined (reading 'startsWith')"

  /** A record resolved, or the message its failure leaves in `parseErrors`. */
  datatype Outcome = Resolved(info: DependencyInfo) | Failed(message: string)

  /** Resolving the record at position `i`: a record without a source throws. */
  function OutcomeOf(env: Env, d: RawDependency, i: nat): (o: Outcome)
    ensures o.Failed? <==> d.source.None?
    ensures o.Resolved? ==> o.info.name == d.source.value && o.info.id == d.id && o.info.nodeId == d.nodeId
  {
    match d.source
    case None => Failed("Failed to resolve undefined: " + UndefinedStartsWith)
    case Some(src) =>
      Resolved(DependencyInfo(src, d.kind, d.importKind, d.specifiers, d.id, d.nodeId, env.uiIds(i),
                              ResolveDependencyPath(env.fs, src, env.currentDir, env.projectRoot, env.md5)))
  }

  function Outcomes(env: Env, deps: seq<RawDependency>): (os: seq<Outcome>)
    ensures |os| == |deps|
    ensures forall i :: 0 <= i < |deps| ==> os[i] == OutcomeOf(env, deps[i], i)
    decreases |deps|
  {
    if deps == [] then []
    else Outcomes(env, deps[..|deps| - 1]) + [OutcomeOf(env, deps[|deps| - 1], |deps| - 1)]
  }

  /** The resolved records that are local, in order. */
  function LocalsOf(os: seq<Outcome>): (r: seq<DependencyInfo>)
    decreases |os|
  {
    if os == [] then []
    else
      var last := os[|os| - 1];
      LocalsOf(os[..|os| - 1]) + (if last.Resolved? && IsLocal(last.info) then [last.info] else [])
  }

  /** The resolved records that are external, in order. */
  function ExternalsOf(os: seq<Outcome>): (r: seq<DependencyInfo>)
    decreases |os|
  {
    if os == [] then []
    else
      var last := os[|os| - 1];
      ExternalsOf(os[..|os| - 1]) + (if last.Resolved? && !IsLocal(last.info) then [last.info] else [])
  }

  /** The failure messages, in order. */
  function ErrorsOf(os: seq<Outcome>): (r: seq<string>)
    decreases |os|
  {
    if os == [] then []
    else
      var last := os[|os| - 1];
      ErrorsOf(os[..|os| - 1]) + (if last.Failed? then [last.message] else [])
  }

  /** The resolved records, in order. */
  function InfosOf(os: seq<Outcome>): seq<DependencyInfo>
    decreases |os|
  {
    if os == [] then []
    else
      var last := os[|os| - 1];
      InfosOf(os[..|os| - 1]) + (if last.Resolved? then [last.info] else [])
  }

  lemma SidesSnoc(os: seq<Outcome>, o: Outcome)
    ensures LocalsOf(os + [o]) == LocalsOf(os) + (if o.Resolved? && IsLocal(o.info) then [o.info] else [])
    ensures ExternalsOf(os + [o]) == ExternalsOf(os) + (if o.Resolved? && !IsLocal(o.info) then [o.info] else [])
    ensures ErrorsOf(os + [o]) == ErrorsOf(os) + (if o.Failed? then [o.message] else [])
  {
    assert (os + [o])[..|os|] == os;
  }

  /** Membership on each side: the locals, the externals and the failure messages of the outcomes. */
  lemma {:induction false} OutcomeSides(os: seq<Outcome>)
    ensures forall d :: d in LocalsOf(os) <==> Resolved(d) in os && IsLocal(d)
    ensures forall d :: d in ExternalsOf(os) <==> Resolved(d) in os && !IsLocal(d)
    ensures forall m :: m in ErrorsOf(os) <==> Failed(m) in os
    decreases |os|
  {
    if os != [] {
      var pre := os[..|os| - 1];
      OutcomeSides(pre);
      assert os == pre + [os[|os| - 1]];
    }
  }

  /** Each outcome lands on exactly one side: locals, externals or errors. */
  lemma {:induction false} OutcomesPartition(os: seq<Outcome>)
    ensures multiset(LocalsOf(os)) + multiset(ExternalsOf(os)) == multiset(InfosOf(os))
    ensures |InfosOf(os)| + |ErrorsOf(os)| == |os|
    decreases |os|
  {
    if os != [] {
      OutcomesPartition(os[..|os| - 1]);
    }
  }

  datatype Metadata = Metadata(totalCount: nat, parseErrors: seq<string>, filePath: string, analysisId: string)

  datatype DependencyAnalysis = DependencyAnalysis(
    localDependencies: seq<DependencyInfo>, externalDependencies: seq<DependencyInfo>, metadata: Metadata)

  /** `categorizeDependencies`: both sides sorted by name, and the count of the resolved records. */
  function Categorized(env: Env, deps: seq<RawDependency>, analysisId: string): DependencyAnalysis {
    var os := Outcomes(env, deps);
    var locals := LocalsOf(os);
    var externals := ExternalsOf(os);
    DependencyAnalysis(SortBy(locals, NameOf), SortBy(externals, NameOf),
                       Metadata(|locals| + |externals|, ErrorsOf(os), Render(env.currentDir), analysisId))
  }

  /** The `forEach` that pushes each resolved record to its side and each failure to `parseErrors`. */
  method PartitionOutcomes(os: seq<Outcome>)
    returns (locals: seq<DependencyInfo>, externals: seq<DependencyInfo>, errors: seq<string>)
    ensures locals == LocalsOf(os) && externals == ExternalsOf(os) && errors == ErrorsOf(os)
  {
    locals, externals, errors := [], [], [];
    for i := 0 to |os|
      invariant locals == LocalsOf(os[..i])
      invariant externals == ExternalsOf(os[..i])
      invariant errors == ErrorsOf(os[..i])
    {
      assert os[..i + 1] == os[..i] + [os[i]];
      SidesSnoc(os[..i], os[i]);
      locals, externals, errors := PushOutcome(os[i], locals, externals, errors);
    }
    assert os[..|os|] == os;
  }

  /** Each record resolved in order, then partitioned, then the two sorts by name. */
  method CategorizeDependencies(env: Env, deps: seq<RawDependency>, analysisId: string) returns (r: DependencyAnalysis)
    ensures r == Categorized(env, deps, analysisId)
  {
    var os := Outcomes(env, deps);
    var locals, externals, errors := PartitionOutcomes(os);
    r := DependencyAnalysis(SortBy(locals, NameOf), SortBy(externals, NameOf),
                            Metadata(|locals| + |externals|, errors, Render(env.currentDir), analysisId));
  }

  /** One record of the `forEach`: a failure to the messages, a local or external record to its side. */
  method PushOutcome(o: Outcome, locals0: seq<DependencyInfo>, externals0: seq<DependencyInfo>, errors0: seq<string>)
    returns (locals: seq<DependencyInfo>, externals: seq<DependencyInfo>, errors: seq<string>)
    ensures locals == locals0 + (if o.Resolved? && IsLocal(o.info) then [o.info] else [])
    ensures externals == externals0 + (if o.Resolved? && !IsLocal(o.info) then [o.info] else [])
    ensures errors == errors0 + (if o.Failed? then [o.message] else [])
  {
    locals, externals, errors := locals0, externals0, errors0;
    if o.Failed? {
      errors := errors + [o.message];
    } else if IsLocal(o.info) {
      locals := locals + [o.info];
    } else {
      externals := externals + [o.info];
    }
  }

  /**
    The categorised result partitions the records by locality, each side
    sorted by name; only a failed resolution leaves a message, one per
    failure, and the count is the number of records kept.
   */
  lemma CategorizedPartition(env: Env, deps: seq<RawDependency>, analysisId: string)
    ensures var r := Categorized(env, deps, analysisId);
      var os := Outcomes(env, deps);
      multiset(r.localDependencies) + multiset(r.externalDependencies) == multiset(InfosOf(os))
      && SortedBy(r.localDependencies, NameOf) && SortedBy(r.externalDependencies, NameOf)
      && (forall d :: d in r.localDependencies ==> IsLocal(d))
      && (forall d :: d in r.externalDependencies ==> !IsLocal(d))
      && r.metadata.totalCount == |r.localDependencies| + |r.externalDependencies|
      && r.metadata.totalCount + |r.metadata.parseErrors| == |deps|
  {
    var os := Outcomes(env, deps);
    var locals := LocalsOf(os);
    var externals := ExternalsOf(os);
    OutcomesPartition(os);
    OutcomeSides(os);
    SortBySorted(locals, NameOf);
    SortBySorted(externals, NameOf);
    var r := Categorized(env, deps, analysisId);
    forall d | d in r.localDependencies ensures IsLocal(d) {
      assert d in multiset(locals);
    }
    forall d | d in r.externalDependencies ensures !IsLocal(d) {
      assert d in multiset(externals);
    }
    assert |multiset(locals)| + |multiset(externals)| == |multiset(InfosOf(os))|;
  }

  /** A record resolves exactly when it has a source: every `export * from` record becomes a message. */
  lemma FailuresAreSourceless(env: Env, deps: seq<RawDependency>, i: nat)
    requires i < |deps|
    ensures Outcomes(env, deps)[i].Failed? <==> deps[i].source.None?
    ensures deps[i].source.None? ==> "Failed to resolve undefined: " + UndefinedStartsWith in ErrorsOf(Outcomes(env, deps))
  {
  }

  // ---------------------------------------------------------------------------
  // The analysis of one file
  // ---------------------------------------------------------------------------

  const SupportedExtensions: seq<string> := [".js", ".jsx", ".ts", ".tsx", ".mjs", ".cjs"]

  /** `path.extname` of a file path: the extension of its last segment. */
  function FileExtension(file: Path): string {
    if file == [] then "" else Paths.Extname(file[|file| - 1])
  }

  /** The record the `catch` (and the unsupported-type branch) returns. */
  function FailedAnalysis(message: string, file: Path, analysisId: string): (r: DependencyAnalysis)
    ensures r.localDependencies == [] && r.externalDependencies == []
    ensures r.metadata.totalCount == 0 && r.metadata.parseErrors == [message]
  {
    DependencyAnalysis([], [], Metadata(0, [message], Render(file), analysisId))
  }

  /**
    `analyzeDependencies`: a missing file, a failed read, an unsupported
    extension or a parse error each give the empty result with one message;
    otherwise the categorised records of the parsed nodes. `parse` stands
    for the parser (its result or its error message), `readFailure` for the
    message of a failed read.
   */
  function Analysis(fs: Entry, file: Path, projectRoot: Path, md5: string -> string, uiIds: nat -> string,
                    parse: (string, string) -> Result<seq<Statement>>, readFailure: string, analysisId: string): DependencyAnalysis
  {
    match ReadFile(fs, file)
    case Missing => FailedAnalysis("File not found: " + Render(file), file, analysisId)
    case Unreadable => FailedAnalysis(readFailure, file, analysisId)
    case Content(text) =>
      var ext := FileExtension(file);
      if ext !in SupportedExtensions then FailedAnalysis("Unsupported file type: " + ext, file, analysisId)
      else match parse(text, ext)
        case Err(message) => FailedAnalysis(message, file, analysisId)
        case Ok(stmts) => Categorized(Env(fs, Parent(file), projectRoot, md5, uiIds), Dependencies(stmts, file, md5), analysisId)
  }

  /** `extractDependencies`: the traversal, then the categorising. */
  method ExtractDependencies(env: Env, stmts: seq<Statement>, file: Path, analysisId: string) returns (r: DependencyAnalysis)
    requires env.currentDir == Parent(file)
    ensures r == Categorized(env, Dependencies(stmts, file, env.md5), analysisId)
  {
    var deps := CollectDependencies(stmts, file, env.md5);
    r := CategorizeDependencies(env, deps, analysisId);
  }

  method AnalyzeDependencies(fs: Entry, file: Path, projectRoot: Path, md5: string -> string, uiIds: nat -> string,
                             parse: (string, string) -> Result<seq<Statement>>, readFailure: string, analysisId: string)
    returns (r: DependencyAnalysis)
    ensures r == Analysis(fs, file, projectRoot, md5, uiIds, parse, readFailure, analysisId)
    ensures !Exists(fs, file) ==> r == FailedAnalysis("File not found: " + Render(file), file, analysisId)
  {
    var read := ReadFile(fs, file);
    match read {
      case Missing =>
        r := FailedAnalysis("File not found: " + Render(file), file, analysisId);
      case Unreadable =>
        r := FailedAnalysis(readFailure, file, analysisId);
      case Content(text) =>
        var ext := FileExtension(file);
        if ext !in SupportedExtensions {
          r := FailedAnalysis("Unsupported file type: " + ext, file, analysisId);
        } else {
          var parsed := parse(text, ext);
          match parsed {
            case Err(message) =>
              r := FailedAnalysis(message, file, analysisId);
            case Ok(stmts) =>
              r := ExtractDependencies(Env(fs, Parent(file), projectRoot, md5, uiIds), stmts, file, analysisId);
          }
        }
    }
  }

  /** Every failure path yields no records, a zero count and exactly one message; success counts what it keeps. */
  lemma AnalysisShapes(fs: Entry, file: Path, projectRoot: Path, md5: string -> string, uiIds: nat -> string,
                       parse: (string, string) -> Result<seq<Statement>>, readFailure: string, analysisId: string)
    ensures var r := Analysis(fs, file, projectRoot, md5, uiIds, parse, readFailure, analysisId);
      r.metadata.totalCount == |r.localDependencies| + |r.externalDependencies|
      && (!ReadFile(fs, file).Content? || FileExtension(file) !in SupportedExtensions
          || parse(ReadFile(fs, file).text, FileExtension(file)).Err? ==>
            r.localDependencies == [] && r.externalDependencies == [] && r.metadata.totalCount == 0
            && |r.metadata.parseErrors| == 1)
  {
    match ReadFile(fs, file)
    case Missing =>
    case Unreadable =>
    case Content(text) =>
      var ext := FileExtension(file);
      if ext in SupportedExtensions {
        match parse(text, ext)
        case Err(_) =>
        case Ok(stmts) =>
          CategorizedPartition(Env(fs, Parent(file), projectRoot, md5, uiIds), Dependencies(stmts, file, md5), analysisId);
      }
  }

  // ---------------------------------------------------------------------------
  // Dependency nodes and lookups
  // ---------------------------------------------------------------------------

  function AllDependencies(d: DependencyAnalysis): seq<DependencyInfo> {
    d.localDependencies + d.externalDependencies
  }

  datatype DependencyNode = DependencyNode(id: string, position: Position, info: DependencyInfo)

  datatype DependencyEdge = DependencyEdge(
    id: string, source: string, target: string, stroke: string, dashArray: string, edgeLabel: string,
    dependencyId: string, edgeId: string)

  /** Item `index` of the grid below the parent: four to a row, 250 apart, rows 150 apart. */
  function GridPosition(parent: Position, index: nat): Position {
    var row := index / 4;
    var col := index % 4;
    Position(parent.x + ((col as real) - 2.0) * 250.0, parent.y + 200.0 + (row as real) * 150.0)
  }

  function GridNode(parentId: string, parent: Position, index: nat, dep: DependencyInfo): DependencyNode {
    DependencyNode(parentId + "-dep-" + dep.nodeId, GridPosition(parent, index), dep)
  }

  function GridEdge(parentId: string, dep: DependencyInfo, md5: string -> string): DependencyEdge {
    var edgeId := "edge-" + parentId + "-" + dep.nodeId;
    DependencyEdge(edgeId, parentId, parentId + "-dep-" + dep.nodeId,
                   if IsLocal(dep) then "#10b981" else "#6366f1",
                   if IsLocal(dep) then "0" else "5,5",
                   dep.kind, dep.id, Prefix(md5(edgeId), 8))
  }

  /** `createDependencyNodes`: one node and one edge from the parent per dependency, locals first. */
  method CreateDependencyNodes(deps: DependencyAnalysis, parentId: string, parent: Position, md5: string -> string)
    returns (nodes: seq<DependencyNode>, edges: seq<DependencyEdge>)
    ensures var all := AllDependencies(deps);
      |nodes| == |all| && |edges| == |all|
      && (forall i :: 0 <= i < |all| ==> nodes[i] == GridNode(parentId, parent, i, all[i]) && edges[i] == GridEdge(parentId, all[i], md5))
      && (forall i :: 0 <= i < |all| ==> edges[i].source == parentId && edges[i].target == nodes[i].id)
  {
    var all := AllDependencies(deps);
    nodes := [];
    edges := [];
    for i := 0 to |all|
      invariant |nodes| == i && |edges| == i
      invariant forall k :: 0 <= k < i ==> nodes[k] == GridNode(parentId, parent, k, all[k]) && edges[k] == GridEdge(parentId, all[k], md5)
    {
      nodes := nodes + [GridNode(parentId, parent, i, all[i])];
      edges := edges + [GridEdge(parentId, all[i], md5)];
    }
  }

  /** No two dependencies share a grid cell. */
  lemma GridCellsDistinct(parent: Position, i: nat, j: nat)
    requires i != j
    ensures GridPosition(parent, i) != GridPosition(parent, j)
  {
    if i / 4 == j / 4 {
      assert i % 4 != j % 4;
    }
  }

  /** `getDependencyById`: the first dependency with the id, locals before externals. */
  function DependencyById(deps: seq<DependencyInfo>, id: string): (r: Option<DependencyInfo>)
    ensures r.Some? ==> r.value in deps && r.value.id == id
    ensures r.None? <==> forall d :: d in deps ==> d.id != id
    decreases |deps|
  {
    if deps == [] then None
    else if deps[0].id == id then Some(deps[0])
    else DependencyById(deps[1..], id)
  }

  /** The dependency found is the first one carrying the id. */
  lemma {:induction false} DependencyByIdFirst(deps: seq<DependencyInfo>, id: string, i: nat)
    requires i < |deps| && deps[i].id == id
    ensures DependencyById(deps, id).Some?
    ensures exists k :: 0 <= k <= i && deps[k] == DependencyById(deps, id).value && forall j :: 0 <= j < k ==> deps[j].id != id
    decreases i
  {
    if deps[0].id == id {
      assert deps[0] == DependencyById(deps, id).value;
    } else {
      DependencyByIdFirst(deps[1..], id, i - 1);
      var k :| 0 <= k <= i - 1 && deps[1..][k] == DependencyById(deps[1..], id).value
        && forall j :: 0 <= j < k ==> deps[1..][j].id != id;
      assert deps[k + 1] == deps[1..][k];
      forall j | 0 <= j < k + 1 ensures deps[j].id != id {
        if j > 0 {
          assert deps[j] == deps[1..][j - 1];
        }
      }
    }
  }

  /** `getDependencyById`: a dependency of either side carrying the identifier. */
  function GetDependencyById(d: DependencyAnalysis, id: string): (r: Option<DependencyInfo>)
    ensures r.Some? ==> (r.value in d.localDependencies || r.value in d.externalDependencies) && r.value.id == id
    ensures r.None? <==> forall x :: x in d.localDependencies + d.externalDependencies ==> x.id != id
  {
    DependencyById(AllDependencies(d), id)
  }

  /** `filterDependenciesByType`: the dependencies of one import type, in order. */
  function OfType(deps: seq<DependencyInfo>, kind: string): (r: seq<DependencyInfo>)
    ensures forall d :: d in r <==> d in deps && d.kind == kind
    ensures Subsequence(r, deps)
    decreases |deps|
  {
    if deps == [] then []
    else if deps[0].kind == kind then [deps[0]] + OfType(deps[1..], kind)
    else OfType(deps[1..], kind)
  }

  function FilterDependenciesByType(d: DependencyAnalysis, kind: string): (r: seq<DependencyInfo>)
    ensures forall x :: x in r <==> (x in d.localDependencies || x in d.externalDependencies) && x.kind == kind
  {
    OfType(AllDependencies(d), kind)
  }
}
