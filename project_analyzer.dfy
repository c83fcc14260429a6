/**
  The project analyser: classification of App Router folder and file names,
  URL route paths, the structure tree built over the file system, the
  special-file flags of a folder and the project-wide insights.
 */
module ProjectAnalyzer {
  import opened Strings
  import opened Wrappers
  import opened Paths
  import opened Patterns
  import FS = FileSystem

  // ---------------------------------------------------------------------------
  // Folder names
  // ---------------------------------------------------------------------------

  datatype InterceptLevel = SameLevel | OneLevelUp | TwoLevelsUp | FromRoot

  /** What a folder name means to the App Router (the descriptive texts are fixed per variant). */
  datatype RoutingAnalysis =
    | RouteGroup(displayName: string)
    | PrivateFolder(displayName: string)
    | OptionalCatchAll(displayName: string, paramName: string)
    | CatchAll(displayName: string, paramName: string)
    | DynamicRoute(displayName: string, paramName: string)
    | ParallelRoute(displayName: string, slotName: string)
    | InterceptingRoute(displayName: string, interceptLevel: InterceptLevel)
    | StaticRoute(displayName: string)

  /** `s.slice(1, -1)` */
  function Inner(s: string): string {
    Slice(s, 1, 1)
  }

  /** `/^\(\.+\)/`: the dots between the leading parentheses, when there are any. */
  function InterceptDots(name: string): (r: Option<string>)
    ensures r.Some? ==> |r.value| >= 1 && StartsWith(name, "(" + r.value + ")")
    ensures r.Some? ==> forall i :: 0 <= i < |r.value| ==> r.value[i] == '.'
  {
    if name == [] || name[0] != '(' then None
    else
      var n := LeadingDots(name[1..]);
      if n >= 1 && 1 + n < |name| && name[1 + n] == ')' then
        assert name[..n + 2] == "(" + name[1..1 + n] + ")";
        Some(name[1..1 + n])
      else None
  }

  function LevelOfDots(dots: string): InterceptLevel {
    if dots == ".." then OneLevelUp
    else if dots == "../.." then TwoLevelsUp
    else if dots == "..." then FromRoot
    else SameLevel
  }

  /** `analyzeRoutingPattern`: the first matching rule decides. */
  function AnalyzeRoutingPattern(name: string): (r: RoutingAnalysis)
    ensures r.RouteGroup? || r.displayName == name
  {
    if StartsWith(name, "(") && EndsWith(name, ")") then RouteGroup(Inner(name))
    else if StartsWith(name, "_") then PrivateFolder(name)
    else if StartsWith(name, "[") && EndsWith(name, "]") then
      var param := Inner(name);
      if StartsWith(param, "[...") && EndsWith(param, "]") then OptionalCatchAll(name, Slice(param, 4, 1))
      else if StartsWith(param, "...") then CatchAll(name, param[3..])
      else DynamicRoute(name, param)
    else if StartsWith(name, "@") then ParallelRoute(name, name[1..])
    else match InterceptDots(name)
      case Some(dots) => InterceptingRoute(name, LevelOfDots(dots))
      case None => StaticRoute(name)
  }

  /** A name in parentheses is a route group named by what is inside, whatever that is ("(.)" and "(..)" included). */
  lemma RouteGroupExactly(name: string)
    ensures AnalyzeRoutingPattern(name).RouteGroup? <==> |name| >= 1 && name[0] == '(' && name[|name| - 1] == ')'
    ensures AnalyzeRoutingPattern(name).RouteGroup? && |name| >= 2 ==> "(" + AnalyzeRoutingPattern(name).displayName + ")" == name
  {
    if |name| >= 1 && name[0] == '(' && name[|name| - 1] == ')' {
      assert StartsWith(name, "(") && EndsWith(name, ")");
      if |name| >= 2 {
        assert "(" + Inner(name) + ")" == name;
      }
    }
  }

  /** "[[...x]]" is an optional catch-all for x. */
  lemma OptionalCatchAllShape(x: string)
    ensures AnalyzeRoutingPattern("[[..." + x + "]]") == OptionalCatchAll("[[..." + x + "]]", x)
  {
    var name := "[[..." + x + "]]";
    assert StartsWith(name, "[") && EndsWith(name, "]");
    var param := Inner(name);
    assert param == "[..." + x + "]";
    assert StartsWith(param, "[...") && EndsWith(param, "]");
    assert Slice(param, 4, 1) == x;
  }

  /** "[...x]" is a catch-all for x unless x itself makes it an optional catch-all (it never does). */
  lemma CatchAllShape(x: string)
    ensures AnalyzeRoutingPattern("[..." + x + "]") == CatchAll("[..." + x + "]", x)
  {
    var name := "[..." + x + "]";
    assert StartsWith(name, "[") && EndsWith(name, "]");
    var param := Inner(name);
    assert param == "..." + x;
    assert param[0] == '.';
    assert !StartsWith(param, "[...");
    assert StartsWith(param, "...");
    assert param[3..] == x;
  }

  /** Any other bracketed name is a dynamic segment named by the text inside the brackets. */
  lemma DynamicShape(x: string)
    requires !StartsWith(x, "...") && !(StartsWith(x, "[...") && EndsWith(x, "]"))
    ensures AnalyzeRoutingPattern("[" + x + "]") == DynamicRoute("[" + x + "]", x)
  {
    var name := "[" + x + "]";
    assert StartsWith(name, "[") && EndsWith(name, "]");
    assert Inner(name) == x;
  }

  /** A name that opens with dots in parentheses and does not close with ")" intercepts, at a level fixed by the dots. */
  lemma InterceptingShape(dots: string, rest: string)
    requires |dots| >= 1 && forall i :: 0 <= i < |dots| ==> dots[i] == '.'
    requires rest != [] && rest[|rest| - 1] != ')'
    ensures AnalyzeRoutingPattern("(" + dots + ")" + rest)
         == InterceptingRoute("(" + dots + ")" + rest,
                              if dots == ".." then OneLevelUp else if dots == "..." then FromRoot else SameLevel)
  {
    var name := "(" + dots + ")" + rest;
    assert name[|name| - 1] == rest[|rest| - 1];
    assert !EndsWith(name, ")");
    assert name[0] == '(';
    var n := LeadingDots(name[1..]);
    assert name[1..][..|dots|] == dots;
    assert name[1 + |dots|] == ')';
    assert n == |dots|;
    assert name[1..1 + n] == dots;
    DotsNotNested(dots);
  }

  /** The level "two-levels-up" is never produced: the captured dots cannot contain "/". */
  lemma TwoLevelsUpUnreachable(name: string)
    ensures !(AnalyzeRoutingPattern(name).InterceptingRoute? && AnalyzeRoutingPattern(name).interceptLevel == TwoLevelsUp)
  {
    match InterceptDots(name)
    case None =>
    case Some(dots) => DotsNotNested(dots);
  }

  lemma DotsNotNested(dots: string)
    requires forall i :: 0 <= i < |dots| ==> dots[i] == '.'
    ensures dots != "../.."
  {
    if |dots| == 5 { assert dots[2] == '.'; }
  }

  /** `buildRoutePath`: the URL path of a folder given its parent's path. */
  function BuildRoutePath(parent: string, name: string, analysis: Option<RoutingAnalysis>): (r: string)
    ensures analysis.None? ==> r == parent
    ensures StartsWith(r, parent) || (r == "" && name == "app" && parent == "")
    ensures analysis.Some? && analysis.value.StaticRoute? && !(name == "app" && parent == "") ==> r == parent + "/" + name
  {
    match analysis
    case None => parent
    case Some(a) =>
      match a
      case RouteGroup(_) => parent
      case PrivateFolder(_) => parent
      case ParallelRoute(_, _) => parent
      case InterceptingRoute(_, _) => parent
      case DynamicRoute(_, p) => parent + "/[" + p + "]"
      case CatchAll(_, p) => parent + "/[..." + p + "]"
      case OptionalCatchAll(_, p) => parent + "/[[..." + p + "]]"
      case StaticRoute(_) => if name == "app" && parent == "" then "" else parent + "/" + name
  }

  /** The URL path grows exactly at the segments that appear in URLs. */
  lemma RoutePathUnchangedIff(parent: string, name: string, a: RoutingAnalysis)
    ensures BuildRoutePath(parent, name, Some(a)) == parent
        <==> a.RouteGroup? || a.PrivateFolder? || a.ParallelRoute? || a.InterceptingRoute?
             || (a.StaticRoute? && name == "app" && parent == "")
  {
    var r := BuildRoutePath(parent, name, Some(a));
    if !(a.RouteGroup? || a.PrivateFolder? || a.ParallelRoute? || a.InterceptingRoute?) && !(a.StaticRoute? && name == "app" && parent == "") {
      assert |r| > |parent|;
    }
  }

  // ---------------------------------------------------------------------------
  // File names
  // ---------------------------------------------------------------------------

  datatype SpecialKind =
    | LayoutFile | PageFile | LoadingFile | NotFoundFile | ErrorFile
    | GlobalErrorFile | ApiRouteFile | TemplateFile | DefaultFile

  /**
    A file's App Router purpose. `Special` is the `isAppRouterSpecial` case;
    only route files carry methods. `UntypedSpecial` is `isAppRouterSpecial`
    with no type: the name lookup found a property every object inherits,
    whose spread copies nothing.
   */
  datatype FileAnalysis =
    | RegularFile
    | Special(kind: SpecialKind, apiMethods: Option<seq<string>>)
    | UntypedSpecial
    | ComponentFile

  /** The nine reserved base names. */
  function ReservedName(base: string): (r: Option<SpecialKind>)
    ensures r == Some(ApiRouteFile) <==> base == "route"
  {
    if base == "layout" then Some(LayoutFile)
    else if base == "page" then Some(PageFile)
    else if base == "loading" then Some(LoadingFile)
    else if base == "not-found" then Some(NotFoundFile)
    else if base == "error" then Some(ErrorFile)
    else if base == "global-error" then Some(GlobalErrorFile)
    else if base == "route" then Some(ApiRouteFile)
    else if base == "template" then Some(TemplateFile)
    else if base == "default" then Some(DefaultFile)
    else None
  }

  const ScriptExtensions: seq<string> := [".js", ".jsx", ".ts", ".tsx"]

  /**
    The names a plain object such as `specialFiles` answers for without
    owning them: the properties of `Object.prototype`.
   */
  const InheritedNames: set<string> := {
    "constructor", "hasOwnProperty", "isPrototypeOf", "propertyIsEnumerable",
    "toLocaleString", "toString", "valueOf", "__proto__",
    "__defineGetter__", "__defineSetter__", "__lookupGetter__", "__lookupSetter__"
  }

  const HttpMethods: seq<string> := ["GET", "POST", "PUT", "DELETE", "PATCH", "HEAD", "OPTIONS"]

  function FilterMethods(names: seq<string>, text: string): (r: seq<string>)
    ensures forall m :: m in r <==> m in names && Search(text, t => ExportFunctionFold(t, m))
    ensures |r| <= |names|
    ensures Distinct(names) ==> Distinct(r)
  {
    if names == [] then []
    else
      var rest := FilterMethods(names[1..], text);
      if Search(text, t => ExportFunctionFold(t, names[0])) then
        assert names[0] !in names[1..] ==> names[0] !in rest;
        [names[0]] + rest
      else rest
  }

  /**
    `extractAPIMethodsFromFile`: the HTTP methods a route file exports as
    functions (`export [async] function NAME (`, any letter case), in
    code-unit order; nothing for a missing or unreadable file.
   */
  function ExtractAPIMethodsFromFile(file: FS.FileRead): (r: seq<string>)
    ensures forall m :: m in r <==> file.Content? && m in HttpMethods && Search(file.text, t => ExportFunctionFold(t, m))
    ensures SortedBy(r, Id)
    ensures Distinct(r)
  {
    match file
    case Content(text) =>
      var found := FilterMethods(HttpMethods, text);
      HttpMethodsDistinct();
      SortedNames(found);
      SortBy(found, Id)
    case _ => []
  }

  lemma HttpMethodsDistinct()
    ensures Distinct(HttpMethods)
  {
  }

  /** Sorting a list of distinct names keeps exactly those names, distinct, in order. */
  lemma SortedNames(found: seq<string>)
    requires Distinct(found)
    ensures var r := SortBy(found, Id);
      (forall m :: m in r <==> m in found) && SortedBy(r, Id) && Distinct(r)
  {
    var r := SortBy(found, Id);
    SortBySorted(found, Id);
    DistinctPermutation(found, r);
    assert forall m :: m in r <==> m in multiset(r);
  }

  /**
    `analyzeAppRouterFile`: a script file whose text before the first dot is
    reserved is special; `route` files also list their HTTP methods. A base
    name that only an inherited property answers to is special without a type.
   */
  function AnalyzeAppRouterFile(fileName: string, file: FS.FileRead): (r: FileAnalysis)
    ensures Extname(fileName) !in ScriptExtensions <==> r.RegularFile?
    ensures r.Special? <==> Extname(fileName) in ScriptExtensions && ReservedName(BeforeFirstDot(fileName)).Some?
    ensures r.Special? ==> r.kind == ReservedName(BeforeFirstDot(fileName)).value
    ensures r.Special? ==> (r.apiMethods.Some? <==> r.kind == ApiRouteFile)
    ensures r.Special? && r.kind == ApiRouteFile ==> r.apiMethods == Some(ExtractAPIMethodsFromFile(file))
    ensures r.UntypedSpecial? <==> Extname(fileName) in ScriptExtensions && BeforeFirstDot(fileName) in InheritedNames
    ensures r.ComponentFile? <==>
      Extname(fileName) in ScriptExtensions && ReservedName(BeforeFirstDot(fileName)).None? && BeforeFirstDot(fileName) !in InheritedNames
  {
    if Extname(fileName) !in ScriptExtensions then RegularFile
    else match ReservedName(BeforeFirstDot(fileName))
      case Some(kind) =>
        ReservedNotInherited(BeforeFirstDot(fileName));
        Special(kind, if kind == ApiRouteFile then Some(ExtractAPIMethodsFromFile(file)) else None)
      case None => if BeforeFirstDot(fileName) in InheritedNames then UntypedSpecial else ComponentFile
  }

  /** No reserved name is also an inherited one, so the two lookups never compete. */
  lemma ReservedNotInherited(base: string)
    requires ReservedName(base).Some?
    ensures base !in InheritedNames
  {
  }

  /** `constructor.js` is special with no type: no flag and no file count follow from it. */
  lemma InheritedNameUntyped(file: FS.FileRead)
    ensures AnalyzeAppRouterFile("constructor.js", file) == UntypedSpecial
  {
    ConstructorBase();
    ConstructorExt();
    assert ".js" == ScriptExtensions[0];
    assert "constructor" in InheritedNames;
  }

  // The two halves of `constructor.js`, one lemma each to keep the string reasoning small.
  lemma ConstructorBase()
    ensures BeforeFirstDot("constructor.js") == "constructor"
  {
    var n := "constructor.js";
    assert n[11] == '.' && n[..11] == "constructor";
    assert forall k :: 0 <= k < 11 ==> n[k] != '.';
    var b := BeforeFirstDot(n);
    assert b == n[..|b|];
    assert |b| <= 11;
  }

  lemma ConstructorExt()
    ensures Extname("constructor.js") == ".js"
  {
    var n := "constructor.js";
    assert n[11] == '.' && n[11..] == ".js";
    assert forall k :: 11 < k < |n| ==> n[k] != '.';
    assert LastIndexOf(n, '.') == 11;
  }

  /** `isAppRouterFolder`: the relative path is "app" or lies below it. */
  predicate IsAppRouterFolder(relativePath: string) {
    StartsWith(relativePath, "app/") || relativePath == "app"
  }

  // ---------------------------------------------------------------------------
  // The structure tree
  // ---------------------------------------------------------------------------

  datatype SpecialFlags = SpecialFlags(
    hasPage: bool, hasLayout: bool, hasLoading: bool, hasError: bool,
    hasNotFound: bool, hasApiRoute: bool, hasTemplate: bool, hasDefault: bool)

  /**
    A node of the project structure. The App Router fields (`routing`,
    `routePath`, `specialFiles`, `fileAnalysis`) are `None` outside `app`.
   */
  datatype Node =
    | Folder(name: string, children: seq<Node>, isAppRouter: bool,
             routing: Option<RoutingAnalysis>, routePath: Option<string>,
             specialFiles: Option<SpecialFlags>, fullPath: string, relativePath: string)
    | File(name: string, isAppRouter: bool, fileAnalysis: Option<FileAnalysis>,
           fullPath: string, relativePath: string)

  /** Some direct file child is special of the given kind. */
  predicate HasSpecialChild(children: seq<Node>, kind: SpecialKind) {
    exists i :: 0 <= i < |children| && IsSpecialFileOf(children[i], kind)
  }

  /** The kind of a special file; nothing for a folder or any other file. */
  function SpecialKindOf(n: Node): Option<SpecialKind> {
    if n.File? && n.fileAnalysis.Some? && n.fileAnalysis.value.Special? then Some(n.fileAnalysis.value.kind) else None
  }

  predicate IsSpecialFileOf(n: Node, kind: SpecialKind) {
    SpecialKindOf(n) == Some(kind)
  }

  /** The flags `detectSpecialFiles` reports, one per kind that has a flag. */
  function FlagsOf(children: seq<Node>): SpecialFlags {
    SpecialFlags(
      HasSpecialChild(children, PageFile), HasSpecialChild(children, LayoutFile),
      HasSpecialChild(children, LoadingFile), HasSpecialChild(children, ErrorFile),
      HasSpecialChild(children, NotFoundFile), HasSpecialChild(children, ApiRouteFile),
      HasSpecialChild(children, TemplateFile), HasSpecialChild(children, DefaultFile))
  }

  function SetFlag(f: SpecialFlags, kind: SpecialKind): SpecialFlags {
    match kind
    case PageFile => f.(hasPage := true)
    case LayoutFile => f.(hasLayout := true)
    case LoadingFile => f.(hasLoading := true)
    case ErrorFile => f.(hasError := true)
    case NotFoundFile => f.(hasNotFound := true)
    case ApiRouteFile => f.(hasApiRoute := true)
    case TemplateFile => f.(hasTemplate := true)
    case DefaultFile => f.(hasDefault := true)
    case GlobalErrorFile => f
  }

  /** The flags after looking at one more child. */
  function Mark(f: SpecialFlags, c: Node): SpecialFlags {
    MarkKind(f, SpecialKindOf(c))
  }

  /** Each flag stays raised, or is raised when `k` is its kind. */
  function MarkKind(f: SpecialFlags, k: Option<SpecialKind>): SpecialFlags {
    SpecialFlags(
      f.hasPage || k == Some(PageFile), f.hasLayout || k == Some(LayoutFile),
      f.hasLoading || k == Some(LoadingFile), f.hasError || k == Some(ErrorFile),
      f.hasNotFound || k == Some(NotFoundFile), f.hasApiRoute || k == Some(ApiRouteFile),
      f.hasTemplate || k == Some(TemplateFile), f.hasDefault || k == Some(DefaultFile))
  }

  /** `detectSpecialFiles`: sets a flag for each special file among the direct children. */
  method DetectSpecialFiles(children: seq<Node>) returns (flags: SpecialFlags)
    ensures flags == FlagsOf(children)
  {
    flags := SpecialFlags(false, false, false, false, false, false, false, false);
    var i := 0;
    while i < |children|
      invariant 0 <= i <= |children|
      invariant flags == FlagsOf(children[..i])
    {
      var child := children[i];
      Marked(flags, child);
      if child.File? && child.fileAnalysis.Some? && child.fileAnalysis.value.Special? {
        flags := SetFlag(flags, child.fileAnalysis.value.kind);
      }
      assert children[..i + 1] == children[..i] + [child];
      FlagsStep(children[..i], child);
      i := i + 1;
    }
    assert children[..i] == children;
  }

  /** The `switch` of `detectSpecialFiles` raises exactly the flag of the child's kind. */
  lemma Marked(f: SpecialFlags, c: Node)
    ensures Mark(f, c) == if c.File? && c.fileAnalysis.Some? && c.fileAnalysis.value.Special?
                          then SetFlag(f, c.fileAnalysis.value.kind) else f
  {
    MarkedKind(f, SpecialKindOf(c));
  }

  lemma MarkedKind(f: SpecialFlags, k: Option<SpecialKind>)
    ensures MarkKind(f, k) == if k.Some? then SetFlag(f, k.value) else f
  {
    if k.Some? {
      match k.value
      case PageFile => assert k == Some(PageFile); MarkPage(f);
      case LayoutFile => assert k == Some(LayoutFile); MarkLayout(f);
      case LoadingFile => assert k == Some(LoadingFile); MarkLoading(f);
      case ErrorFile => assert k == Some(ErrorFile); MarkError(f);
      case NotFoundFile => assert k == Some(NotFoundFile); MarkNotFound(f);
      case ApiRouteFile => assert k == Some(ApiRouteFile); MarkApiRoute(f);
      case TemplateFile => assert k == Some(TemplateFile); MarkTemplate(f);
      case DefaultFile => assert k == Some(DefaultFile); MarkDefault(f);
      case GlobalErrorFile => assert k == Some(GlobalErrorFile); MarkGlobalError(f);
    }
  }

  // One lemma per kind keeps each comparison of flag records apart.
  lemma MarkPage(f: SpecialFlags)
    ensures MarkKind(f, Some(PageFile)) == SetFlag(f, PageFile)
  {
  }

  lemma MarkLayout(f: SpecialFlags)
    ensures MarkKind(f, Some(LayoutFile)) == SetFlag(f, LayoutFile)
  {
  }

  lemma MarkLoading(f: SpecialFlags)
    ensures MarkKind(f, Some(LoadingFile)) == SetFlag(f, LoadingFile)
  {
  }

  lemma MarkError(f: SpecialFlags)
    ensures MarkKind(f, Some(ErrorFile)) == SetFlag(f, ErrorFile)
  {
  }

  lemma MarkNotFound(f: SpecialFlags)
    ensures MarkKind(f, Some(NotFoundFile)) == SetFlag(f, NotFoundFile)
  {
  }

  lemma MarkApiRoute(f: SpecialFlags)
    ensures MarkKind(f, Some(ApiRouteFile)) == SetFlag(f, ApiRouteFile)
  {
  }

  lemma MarkTemplate(f: SpecialFlags)
    ensures MarkKind(f, Some(TemplateFile)) == SetFlag(f, TemplateFile)
  {
  }

  lemma MarkDefault(f: SpecialFlags)
    ensures MarkKind(f, Some(DefaultFile)) == SetFlag(f, DefaultFile)
  {
  }

  lemma MarkGlobalError(f: SpecialFlags)
    ensures MarkKind(f, Some(GlobalErrorFile)) == SetFlag(f, GlobalErrorFile)
  {
  }

  lemma FlagsStep(pre: seq<Node>, c: Node)
    ensures FlagsOf(pre + [c]) == Mark(FlagsOf(pre), c)
  {
    HasSpecialSnoc(pre, c, PageFile);
    HasSpecialSnoc(pre, c, LayoutFile);
    HasSpecialSnoc(pre, c, LoadingFile);
    HasSpecialSnoc(pre, c, ErrorFile);
    HasSpecialSnoc(pre, c, NotFoundFile);
    HasSpecialSnoc(pre, c, ApiRouteFile);
    HasSpecialSnoc(pre, c, TemplateFile);
    HasSpecialSnoc(pre, c, DefaultFile);
  }

  /** Folders, non-special files and global-error files never raise a flag. */
  lemma FlagsIgnoreOthers(children: seq<Node>, extra: Node)
    requires !extra.File? || extra.fileAnalysis.None? || !extra.fileAnalysis.value.Special?
             || extra.fileAnalysis.value.kind == GlobalErrorFile
    ensures FlagsOf(children + [extra]) == FlagsOf(children)
  {
    FlagsStep(children, extra);
  }

  lemma HasSpecialSnoc(pre: seq<Node>, c: Node, k: SpecialKind)
    ensures HasSpecialChild(pre + [c], k) <==> HasSpecialChild(pre, k) || IsSpecialFileOf(c, k)
  {
    var next := pre + [c];
    if HasSpecialChild(next, k) {
      var j :| 0 <= j < |next| && IsSpecialFileOf(next[j], k);
      if j < |pre| { assert pre[j] == next[j]; }
    }
    if HasSpecialChild(pre, k) {
      var j :| 0 <= j < |pre| && IsSpecialFileOf(pre[j], k);
      assert next[j] == pre[j];
    }
    if IsSpecialFileOf(c, k) { assert next[|pre|] == c; }
  }

  /** The children that survive the ignore filter. */
  function Present(nodes: seq<Option<Node>>): (r: seq<Node>)
    ensures |r| <= |nodes|
    ensures forall n :: n in r <==> Some(n) in nodes
  {
    if nodes == [] then []
    else if nodes[0].Some? then [nodes[0].value] + Present(nodes[1..])
    else Present(nodes[1..])
  }

  /**
    `buildDirectoryTree`: the node for entry `e`, found at `root + rel`
    (`rel` relative to the project root). A non-root entry whose relative
    path is ignored gives nothing. `parentRoute` is the URL path handed
    down by the parent.
   */
  function BuildDirectoryTree(e: FS.Entry, root: FS.Path, rel: FS.Path, ignores: string -> bool, parentRoute: string): (r: Option<Node>)
    ensures r.Some? ==> r.value.name == e.name && r.value.isAppRouter == IsAppRouterFolder(Join(rel, "/"))
    ensures r.None? <==> rel != [] && ignores(Join(rel, "/"))
    ensures r.Some? ==> (r.value.Folder? <==> e.Dir?)
    decreases e
  {
    var relative := Join(rel, "/");
    if rel != [] && ignores(relative) then None
    else
      var inApp := IsAppRouterFolder(relative);
      var full := FS.Render(root + rel);
      var shown := if relative == "" then e.name else relative;
      match e
      case Dir(name, entries) =>
        var childRoute := if inApp then BuildRoutePath(parentRoute, name, Some(AnalyzeRoutingPattern(name))) else "";
        var children := Present(seq(|entries|, i requires 0 <= i < |entries| =>
                                      BuildDirectoryTree(entries[i], root, rel + [entries[i].name], ignores, childRoute)));
        var routing := if inApp then Some(AnalyzeRoutingPattern(name)) else None;
        Some(Folder(name, children, inApp, routing,
                    if inApp then Some(BuildRoutePath(parentRoute, name, routing)) else None,
                    if inApp then Some(FlagsOf(children)) else None,
                    full, shown))
      case File(name, content) =>
        var read := if content.Some? then FS.Content(content.value) else FS.Unreadable;
        Some(File(name, inApp, if inApp then Some(AnalyzeAppRouterFile(name, read)) else None, full, shown))
  }

  /** App Router details are present exactly on in-scope nodes, all through the tree. */
  predicate ScopeConsistent(n: Node)
    decreases n
  {
    match n
    case Folder(_, children, inApp, routing, routePath, flags, _, _) =>
      routing.Some? == inApp && routePath.Some? == inApp && flags.Some? == inApp
      && (inApp ==> flags.value == FlagsOf(children))
      && forall i :: 0 <= i < |children| ==> ScopeConsistent(children[i])
    case File(_, inApp, analysis, _, _) => analysis.Some? == inApp
  }

  lemma {:induction false} BuildScopeConsistent(e: FS.Entry, root: FS.Path, rel: FS.Path, ignores: string -> bool, parentRoute: string)
    requires BuildDirectoryTree(e, root, rel, ignores, parentRoute).Some?
    ensures ScopeConsistent(BuildDirectoryTree(e, root, rel, ignores, parentRoute).value)
    decreases e
  {
    var r := BuildDirectoryTree(e, root, rel, ignores, parentRoute).value;
    match e
    case File(_, _) =>
    case Dir(name, entries) =>
      var relative := Join(rel, "/");
      var inApp := IsAppRouterFolder(relative);
      var childRoute := if inApp then BuildRoutePath(parentRoute, name, Some(AnalyzeRoutingPattern(name))) else "";
      var built := seq(|entries|, i requires 0 <= i < |entries| =>
                         BuildDirectoryTree(entries[i], root, rel + [entries[i].name], ignores, childRoute));
      assert r.children == Present(built);
      forall i | 0 <= i < |r.children| ensures ScopeConsistent(r.children[i]) {
        assert Some(r.children[i]) in built;
        var j :| 0 <= j < |built| && built[j] == Some(r.children[i]);
        BuildScopeConsistent(entries[j], root, rel + [entries[j].name], ignores, childRoute);
      }
  }

  /** For names without "/", the App Router scope is everything under a top-level "app". */
  lemma AppScope(rel: FS.Path)
    requires forall i :: 0 <= i < |rel| ==> '/' !in rel[i]
    ensures IsAppRouterFolder(Join(rel, "/")) <==> |rel| >= 1 && rel[0] == "app"
  {
    if |rel| == 1 {
      assert Join(rel, "/") == rel[0];
      SingleScope(rel[0]);
    } else if |rel| > 1 {
      assert Join(rel, "/") == rel[0] + "/" + Join(rel[1..], "/");
      SlashScope(rel[0], Join(rel[1..], "/"));
    }
  }

  lemma SingleScope(first: string)
    requires '/' !in first
    ensures IsAppRouterFolder(first) <==> first == "app"
  {
    if |first| >= 4 { assert first[3] in first; }
  }

  lemma SlashScope(first: string, rest: string)
    requires '/' !in first
    ensures IsAppRouterFolder(first + "/" + rest) <==> first == "app"
  {
    var s := first + "/" + rest;
    assert s[..|first|] == first && s[|first|] == '/';
    assert IndexOf(s, '/') == |first|;
    assert StartsWith(s, "app/") ==> s[3] == '/' && '/' !in s[..3];
    assert StartsWith(s, "app/") ==> |first| == 3 && first == s[..3];
    assert first == "app" ==> s[..4] == "app/";
  }

  /** What `analyzeProject` returns, leaving out the Prisma detection and the timestamp. */
  datatype ProjectAnalysis = ProjectAnalysis(structure: Node, projectRoot: string, insights: Insights)

  /** `analyzeProject`: the tree of the project directory, or the error for a path that is not a directory. */
  function AnalyzeProject(fs: FS.Entry, projectPath: FS.Path, ignores: string -> bool): (r: Result<ProjectAnalysis>)
    ensures r.Ok? <==> FS.IsDirectory(fs, projectPath)
    ensures r.Err? ==> r.error == "Project path is not a valid directory: " + FS.Render(projectPath)
    ensures r.Ok? ==> r.value.structure.Folder? && !r.value.structure.isAppRouter && r.value.projectRoot == FS.Render(projectPath)
    ensures r.Ok? ==> r.value.insights == TreeInsights(r.value.structure)
  {
    match FS.Lookup(fs, projectPath)
    case Some(d) =>
      if d.Dir? then
        var tree := BuildDirectoryTree(d, projectPath, [], ignores, "");
        assert Join([], "/") == "";
        Ok(ProjectAnalysis(tree.value, FS.Render(projectPath), TreeInsights(tree.value)))
      else Err("Project path is not a valid directory: " + FS.Render(projectPath))
    case None => Err("Project path is not a valid directory: " + FS.Render(projectPath))
  }

  // ---------------------------------------------------------------------------
  // Insights
  // ---------------------------------------------------------------------------

  datatype RoutePatterns = RoutePatterns(
    staticRoutes: nat, dynamic: nat, catchAll: nat, optionalCatchAll: nat,
    routeGroups: nat, privateFolders: nat, parallelRoutes: nat, interceptingRoutes: nat)

  datatype SpecialFileCounts = SpecialFileCounts(
    layouts: nat, pages: nat, loading: nat, errors: nat, notFound: nat, templates: nat, defaults: nat)

  datatype Insights = Insights(
    appRouterDetected: bool, routeCount: nat, apiEndpointCount: nat,
    routePatterns: RoutePatterns, specialFiles: SpecialFileCounts)

  const NoPatterns := RoutePatterns(0, 0, 0, 0, 0, 0, 0, 0)
  const NoFiles := SpecialFileCounts(0, 0, 0, 0, 0, 0, 0)
  const NoInsights := Insights(false, 0, 0, NoPatterns, NoFiles)

  function PlusPatterns(a: RoutePatterns, b: RoutePatterns): RoutePatterns {
    RoutePatterns(a.staticRoutes + b.staticRoutes, a.dynamic + b.dynamic, a.catchAll + b.catchAll,
      a.optionalCatchAll + b.optionalCatchAll, a.routeGroups + b.routeGroups, a.privateFolders + b.privateFolders,
      a.parallelRoutes + b.parallelRoutes, a.interceptingRoutes + b.interceptingRoutes)
  }

  function PlusFiles(a: SpecialFileCounts, b: SpecialFileCounts): SpecialFileCounts {
    SpecialFileCounts(a.layouts + b.layouts, a.pages + b.pages, a.loading + b.loading, a.errors + b.errors,
      a.notFound + b.notFound, a.templates + b.templates, a.defaults + b.defaults)
  }

  function Plus(a: Insights, b: Insights): Insights {
    Insights(a.appRouterDetected || b.appRouterDetected, a.routeCount + b.routeCount,
      a.apiEndpointCount + b.apiEndpointCount,
      PlusPatterns(a.routePatterns, b.routePatterns), PlusFiles(a.specialFiles, b.specialFiles))
  }

  function B(c: bool): nat { if c then 1 else 0 }

  /** The pattern counter a folder's analysis increments. */
  function PatternOf(a: RoutingAnalysis): RoutePatterns {
    match a
    case StaticRoute(_) => NoPatterns.(staticRoutes := 1)
    case DynamicRoute(_, _) => NoPatterns.(dynamic := 1)
    case CatchAll(_, _) => NoPatterns.(catchAll := 1)
    case OptionalCatchAll(_, _) => NoPatterns.(optionalCatchAll := 1)
    case RouteGroup(_) => NoPatterns.(routeGroups := 1)
    case PrivateFolder(_) => NoPatterns.(privateFolders := 1)
    case ParallelRoute(_, _) => NoPatterns.(parallelRoutes := 1)
    case InterceptingRoute(_, _) => NoPatterns.(interceptingRoutes := 1)
  }

  /** The special-file counter a file's kind increments (global-error files have none). */
  function FileCountOf(k: SpecialKind): SpecialFileCounts {
    match k
    case LayoutFile => NoFiles.(layouts := 1)
    case PageFile => NoFiles.(pages := 1)
    case LoadingFile => NoFiles.(loading := 1)
    case ErrorFile => NoFiles.(errors := 1)
    case NotFoundFile => NoFiles.(notFound := 1)
    case TemplateFile => NoFiles.(templates := 1)
    case DefaultFile => NoFiles.(defaults := 1)
    case ApiRouteFile => NoFiles
    case GlobalErrorFile => NoFiles
  }

  /** What `traverseStructure` records for one node, leaving its children aside. */
  function OwnInsights(n: Node): Insights {
    if !n.isAppRouter then NoInsights
    else match n
      case Folder(_, _, _, routing, _, flags, _, _) =>
        if routing.None? then Insights(true, 0, 0, NoPatterns, NoFiles)
        else Insights(true, B(flags.Some? && flags.value.hasPage), B(flags.Some? && flags.value.hasApiRoute),
                      PatternOf(routing.value), NoFiles)
      case File(_, _, analysis, _, _) =>
        if analysis.None? || !analysis.value.Special? then Insights(true, 0, 0, NoPatterns, NoFiles)
        else Insights(true, 0, 0, NoPatterns, FileCountOf(analysis.value.kind))
  }

  /** The insights of a whole subtree, in pre-order. */
  function TreeInsights(n: Node): Insights
    decreases n, 1
  {
    Plus(OwnInsights(n), if n.Folder? then ForestInsights(n.children) else NoInsights)
  }

  function ForestInsights(ns: seq<Node>): Insights
    decreases ns, 0
  {
    if ns == [] then NoInsights else Plus(TreeInsights(ns[0]), ForestInsights(ns[1..]))
  }

  /** Number of in-scope folders with a page (what routeCount counts). */
  function PageRoutes(n: Node): nat
    decreases n, 1
  {
    (if n.Folder? && n.isAppRouter && n.routing.Some? && n.specialFiles.Some? && n.specialFiles.value.hasPage then 1 else 0)
    + (if n.Folder? then PageRoutesIn(n.children) else 0)
  }

  function PageRoutesIn(ns: seq<Node>): nat
    decreases ns, 0
  {
    if ns == [] then 0 else PageRoutes(ns[0]) + PageRoutesIn(ns[1..])
  }

  /** Number of in-scope folders with an API route file (what apiEndpointCount counts). */
  function ApiRoutes(n: Node): nat
    decreases n, 1
  {
    (if n.Folder? && n.isAppRouter && n.routing.Some? && n.specialFiles.Some? && n.specialFiles.value.hasApiRoute then 1 else 0)
    + (if n.Folder? then ApiRoutesIn(n.children) else 0)
  }

  function ApiRoutesIn(ns: seq<Node>): nat
    decreases ns, 0
  {
    if ns == [] then 0 else ApiRoutes(ns[0]) + ApiRoutesIn(ns[1..])
  }

  /** Some node of the subtree is in scope. */
  predicate AnyInScope(n: Node)
    decreases n, 1
  {
    n.isAppRouter || (n.Folder? && AnyInScopeIn(n.children))
  }

  predicate AnyInScopeIn(ns: seq<Node>)
    decreases ns, 0
  {
    ns != [] && (AnyInScope(ns[0]) || AnyInScopeIn(ns[1..]))
  }

  /** routeCount is the number of in-scope folders with a page. */
  lemma {:induction false} RouteCountIs(n: Node)
    ensures TreeInsights(n).routeCount == PageRoutes(n)
    decreases n, 1
  {
    var rest := if n.Folder? then ForestInsights(n.children) else NoInsights;
    TreeUnfold(n, rest);
    OwnCounts(n);
    if n.Folder? { RouteCountIsIn(n.children); }
  }

  lemma {:induction false} RouteCountIsIn(ns: seq<Node>)
    ensures ForestInsights(ns).routeCount == PageRoutesIn(ns)
    decreases ns, 0
  {
    if ns != [] {
      var head, tail := TreeInsights(ns[0]), ForestInsights(ns[1..]);
      assert ForestInsights(ns) == Plus(head, tail);
      assert ForestInsights(ns).routeCount == head.routeCount + tail.routeCount;
      assert PageRoutesIn(ns) == PageRoutes(ns[0]) + PageRoutesIn(ns[1..]);
      RouteCountIs(ns[0]);
      RouteCountIsIn(ns[1..]);
    }
  }

  /** apiEndpointCount is the number of in-scope folders with an API route file. */
  lemma {:induction false} ApiCountIs(n: Node)
    ensures TreeInsights(n).apiEndpointCount == ApiRoutes(n)
    decreases n, 1
  {
    var rest := if n.Folder? then ForestInsights(n.children) else NoInsights;
    TreeUnfold(n, rest);
    OwnCounts(n);
    if n.Folder? { ApiCountIsIn(n.children); }
  }

  lemma {:induction false} ApiCountIsIn(ns: seq<Node>)
    ensures ForestInsights(ns).apiEndpointCount == ApiRoutesIn(ns)
    decreases ns, 0
  {
    if ns != [] {
      var head, tail := TreeInsights(ns[0]), ForestInsights(ns[1..]);
      assert ForestInsights(ns) == Plus(head, tail);
      assert ForestInsights(ns).apiEndpointCount == head.apiEndpointCount + tail.apiEndpointCount;
      assert ApiRoutesIn(ns) == ApiRoutes(ns[0]) + ApiRoutesIn(ns[1..]);
      ApiCountIs(ns[0]);
      ApiCountIsIn(ns[1..]);
    }
  }

  /** The App Router is detected iff some node of the tree is in scope. */
  lemma {:induction false} DetectedIff(n: Node)
    ensures TreeInsights(n).appRouterDetected <==> AnyInScope(n)
    decreases n, 1
  {
    var rest := if n.Folder? then ForestInsights(n.children) else NoInsights;
    TreeUnfold(n, rest);
    OwnCounts(n);
    if n.Folder? { DetectedIffIn(n.children); }
  }

  lemma {:induction false} DetectedIffIn(ns: seq<Node>)
    ensures ForestInsights(ns).appRouterDetected <==> AnyInScopeIn(ns)
    decreases ns, 0
  {
    if ns != [] {
      assert ForestInsights(ns).appRouterDetected == (TreeInsights(ns[0]).appRouterDetected || ForestInsights(ns[1..]).appRouterDetected);
      DetectedIff(ns[0]);
      DetectedIffIn(ns[1..]);
    }
  }

  lemma PlusAssoc(a: Insights, b: Insights, c: Insights)
    ensures Plus(Plus(a, b), c) == Plus(a, Plus(b, c))
  {
  }

  lemma PlusUnit(a: Insights)
    ensures Plus(a, NoInsights) == a && Plus(NoInsights, a) == a
  {
  }

  lemma OwnCounts(n: Node)
    ensures OwnInsights(n).routeCount == if n.Folder? && n.isAppRouter && n.routing.Some? && n.specialFiles.Some? && n.specialFiles.value.hasPage then 1 else 0
    ensures OwnInsights(n).apiEndpointCount == if n.Folder? && n.isAppRouter && n.routing.Some? && n.specialFiles.Some? && n.specialFiles.value.hasApiRoute then 1 else 0
    ensures OwnInsights(n).appRouterDetected == n.isAppRouter
  {
  }

  lemma TreeUnfold(n: Node, rest: Insights)
    requires rest == if n.Folder? then ForestInsights(n.children) else NoInsights
    ensures TreeInsights(n).routeCount == OwnInsights(n).routeCount + rest.routeCount
    ensures TreeInsights(n).apiEndpointCount == OwnInsights(n).apiEndpointCount + rest.apiEndpointCount
    ensures TreeInsights(n).appRouterDetected == (OwnInsights(n).appRouterDetected || rest.appRouterDetected)
    ensures TreeInsights(n) == Plus(OwnInsights(n), rest)
  {
  }

  /** `traverseStructure`: adds the subtree's insights to the running counters. */
  method Traverse(n: Node, acc: Insights) returns (r: Insights)
    ensures r == Plus(acc, TreeInsights(n))
    decreases n, 1
  {
    var own := OwnInsights(n);
    TreeUnfold(n, if n.Folder? then ForestInsights(n.children) else NoInsights);
    r := Plus(acc, own);
    if n.Folder? {
      r := TraverseEach(n.children, r);
      PlusAssoc(acc, own, ForestInsights(n.children));
    } else {
      PlusUnit(own);
    }
  }

  /** `node.children.forEach(traverseStructure)` */
  method TraverseEach(ns: seq<Node>, acc: Insights) returns (r: Insights)
    ensures r == Plus(acc, ForestInsights(ns))
    decreases ns, 0
  {
    if ns == [] {
      r := acc;
      PlusUnit(acc);
    } else {
      var head, tail := TreeInsights(ns[0]), ForestInsights(ns[1..]);
      assert ForestInsights(ns) == Plus(head, tail);
      r := Traverse(ns[0], acc);
      r := TraverseEach(ns[1..], r);
      PlusAssoc(acc, head, tail);
    }
  }

  /** `analyzeProjectInsights`: the counters after traversing the whole structure. */
  method AnalyzeProjectInsights(structure: Node) returns (r: Insights)
    ensures r == TreeInsights(structure)
    ensures r.routeCount == PageRoutes(structure)
    ensures r.apiEndpointCount == ApiRoutes(structure)
    ensures r.appRouterDetected <==> AnyInScope(structure)
  {
    r := Traverse(structure, NoInsights);
    PlusUnit(TreeInsights(structure));
    RouteCountIs(structure);
    ApiCountIs(structure);
    DetectedIff(structure);
  }
}
