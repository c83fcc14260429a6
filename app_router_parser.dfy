/**
  The App Router parser: the route path a folder gives its contents, the
  role of each file in a route folder, the heuristics over file text (HTTP
  methods, server actions), and the passes run over the collected routes
  (layout inheritance, parallel slots, intercepting targets, API groups and
  the summary).
 */
module AppRouterParser {
  import opened Strings
  import opened Wrappers
  import opened Paths
  import opened Patterns
  import opened Grouping

  // ---------------------------------------------------------------------------
  // Folders
  // ---------------------------------------------------------------------------

  datatype RouteType = Regular | RouteGroup | Parallel | Intercepting | CatchAll | OptionalCatchAll | Dynamic

  /** What `parseInterceptingRoute` returns (the description text is fixed per level). */
  datatype Intercept = Intercept(pattern: string, segment: string, level: nat)

  /** The characters `.` does not match in an ECMAScript regular expression. */
  predicate IsLineTerminator(c: char) {
    c == '\n' || c == '\r' || c == '\U{2028}' || c == '\U{2029}'
  }

  /** `(.+)$`: a non-empty rest without line terminators. */
  predicate AnyChars(s: string) {
    |s| >= 1 && forall i :: 0 <= i < |s| ==> !IsLineTerminator(s[i])
  }

  /** `parseInterceptingRoute`: the pattern `^\((\.*)\)(.+)$`, its level 1 for "..", 2 for "..." and 0 otherwise. */
  function ParseInterceptingRoute(dirName: string): (r: Intercept)
    ensures r.pattern == dirName && r.level <= 2
  {
    if dirName == [] || dirName[0] != '(' then Intercept(dirName, dirName, 0)
    else
      var body := dirName[1..];
      var k := LeadingDots(body);
      if k < |body| && body[k] == ')' && AnyChars(body[k + 1..]) then
        var dots := body[..k];
        Intercept(dirName, body[k + 1..], if dots == ".." then 1 else if dots == "..." then 2 else 0)
      else Intercept(dirName, dirName, 0)
  }

  /** A name `(dots)rest` yields the rest as the segment, and the level its dots stand for. */
  lemma InterceptMatch(dots: string, rest: string)
    requires forall i :: 0 <= i < |dots| ==> dots[i] == '.'
    requires AnyChars(rest)
    ensures ParseInterceptingRoute("(" + dots + ")" + rest)
         == Intercept("(" + dots + ")" + rest, rest, if dots == ".." then 1 else if dots == "..." then 2 else 0)
  {
    var name := "(" + dots + ")" + rest;
    var body := name[1..];
    assert body == dots + ")" + rest;
    LeadingDotsIs(body, |dots|);
    assert body[..|dots|] == dots;
    assert body[|dots| + 1..] == rest;
  }

  lemma LeadingDotsIs(s: string, n: nat)
    requires n < |s| && (forall i :: 0 <= i < n ==> s[i] == '.') && s[n] != '.'
    ensures LeadingDots(s) == n
  {
  }

  /** Conversely, a result other than the name itself only comes from a name of the shape `(dots)rest`. */
  lemma InterceptShape(name: string)
    ensures var r := ParseInterceptingRoute(name);
      r.segment != name ==>
        exists k :: 1 <= k < |name| && (forall i :: 1 <= i < k ==> name[i] == '.')
          && name == "(" + name[1..k] + ")" + r.segment && AnyChars(r.segment)
    ensures ParseInterceptingRoute(name).segment == name ==> ParseInterceptingRoute(name).level == 0
  {
    var r := ParseInterceptingRoute(name);
    if name != [] && name[0] == '(' {
      var body := name[1..];
      var k := LeadingDots(body);
      if k < |body| && body[k] == ')' && AnyChars(body[k + 1..]) {
        assert |r.segment| < |name|;
        assert name == "(" + name[1..k + 1] + ")" + r.segment;
        assert forall i :: 1 <= i < k + 1 ==> name[i] == body[i - 1];
      }
    }
  }

  /** A folder's entry in `routeGroups`, `parallelRoutes` or `interceptingRoutes`, if any. */
  datatype FolderRecord =
    | NoRecord
    | GroupRecord(name: string, path: string)
    | ParallelRecord(slot: string, path: string, parentPath: string)
    | InterceptRecord(pattern: string, targetSegment: string, path: string, interceptLevel: nat)

  /** What `processDirectory` decides for a folder: its route type, the route path of its contents, its record. */
  datatype FolderStep = FolderStep(routeType: RouteType, newRoutePath: string, record: FolderRecord)

  /** `processDirectory`'s branches in their order, for folder `dirName` under route path `current`. */
  function ProcessDirectory(dirName: string, current: string): (r: FolderStep)
    ensures r.routeType == RouteGroup <==> StartsWith(dirName, "(") && EndsWith(dirName, ")")
    ensures r.routeType == Parallel <==> !(StartsWith(dirName, "(") && EndsWith(dirName, ")")) && StartsWith(dirName, "@")
    ensures r.routeType != Intercepting
    ensures r.record.NoRecord? <==> r.routeType != RouteGroup && r.routeType != Parallel
  {
    if StartsWith(dirName, "(") && EndsWith(dirName, ")") then
      FolderStep(RouteGroup, current, GroupRecord(Slice(dirName, 1, 1), current))
    else if StartsWith(dirName, "@") then
      FolderStep(Parallel, current, ParallelRecord(dirName[1..], current, current))
    else if StartsWith(dirName, "(") && Contains(dirName, ".") && EndsWith(dirName, ")") then
      var info := ParseInterceptingRoute(dirName);
      FolderStep(Intercepting, JoinSegment(current, info.segment), InterceptRecord(info.pattern, info.segment, current, info.level))
    else if StartsWith(dirName, "[") && EndsWith(dirName, "]") then
      if StartsWith(dirName, "[...") then
        FolderStep(CatchAll, JoinSegment(current, "[..." + Slice(dirName, 4, 1) + "]"), NoRecord)
      else if StartsWith(dirName, "[[...") && EndsWith(dirName, "]]") then
        FolderStep(OptionalCatchAll, JoinSegment(current, "[[..." + Slice(dirName, 5, 2) + "]]"), NoRecord)
      else
        FolderStep(Dynamic, JoinSegment(current, "[" + Slice(dirName, 1, 1) + "]"), NoRecord)
    else FolderStep(Regular, JoinSegment(current, dirName), NoRecord)
  }

  /**
    The intercepting branch never runs: every name it accepts starts with "("
    and ends with ")", and the route-group branch before it takes those.
   */
  lemma InterceptingUnreachable(dirName: string, current: string)
    ensures ProcessDirectory(dirName, current).routeType != Intercepting
    ensures !ProcessDirectory(dirName, current).record.InterceptRecord?
  {
  }

  /** `prefix + s[|prefix|..|s| - |suffix|] + suffix == s` when `s` starts and ends with them without overlap. */
  lemma Rewrap(s: string, prefix: string, suffix: string)
    requires StartsWith(s, prefix) && EndsWith(s, suffix) && |prefix| + |suffix| <= |s|
    ensures prefix + Slice(s, |prefix|, |suffix|) + suffix == s
  {
    assert s == s[..|prefix|] + s[|prefix|..|s| - |suffix|] + s[|s| - |suffix|..];
  }

  /**
    Route groups and parallel slots leave the route path as it is; every
    other folder, the dynamic ones included, appends its own name: the
    parameter that is cut out is wrapped back in the same brackets.
   */
  lemma FolderRoutePath(dirName: string, current: string)
    ensures var r := ProcessDirectory(dirName, current);
      r.newRoutePath == if r.routeType == RouteGroup || r.routeType == Parallel then current else JoinSegment(current, dirName)
  {
    if StartsWith(dirName, "[") && EndsWith(dirName, "]") {
      if StartsWith(dirName, "[...") {
        RewrapBrackets(dirName, "[...", "]");
      } else if StartsWith(dirName, "[[...") && EndsWith(dirName, "]]") {
        RewrapBrackets(dirName, "[[...", "]]");
      } else {
        RewrapBrackets(dirName, "[", "]");
      }
    }
  }

  /** A bracketed name is its inner text wrapped back in the same brackets. */
  lemma RewrapBrackets(s: string, prefix: string, suffix: string)
    requires StartsWith(s, prefix) && EndsWith(s, suffix)
    requires (prefix, suffix) in {("[...", "]"), ("[[...", "]]"), ("[", "]")}
    ensures prefix + Slice(s, |prefix|, |suffix|) + suffix == s
  {
    if prefix == "[..." {
      assert s[3] == '.' && s[|s| - 1] == ']';
    } else if prefix == "[[..." {
      assert s[4] == '.' && s[|s| - 1] == ']' && s[|s| - 2] == ']';
    } else {
      assert s[0] == '[' && s[|s| - 1] == ']';
    }
    Rewrap(s, prefix, suffix);
  }

  /** A group name is the text between the parentheses; a slot name the text after "@". */
  lemma FolderRecords(dirName: string, current: string)
    ensures var r := ProcessDirectory(dirName, current);
      (r.record.GroupRecord? <==> r.routeType == RouteGroup)
      && (r.record.ParallelRecord? <==> r.routeType == Parallel)
      && (r.record.GroupRecord? && |dirName| >= 2 ==> "(" + r.record.name + ")" == dirName)
      && (r.record.ParallelRecord? ==> "@" + r.record.slot == dirName && r.record.parentPath == current)
  {
    var r := ProcessDirectory(dirName, current);
    if r.record.GroupRecord? && |dirName| >= 2 {
      Rewrap(dirName, "(", ")");
    }
    if r.record.ParallelRecord? {
      assert dirName == dirName[..1] + dirName[1..];
    }
  }

  /** Under the empty root a static folder's path is its bare name: no leading "/". */
  lemma StaticUnderRoot(dirName: string)
    requires '\\' !in dirName
    requires ProcessDirectory(dirName, "").routeType == Regular
    ensures ProcessDirectory(dirName, "").newRoutePath == dirName
  {
    var r := MapChars(dirName, c => c != '\\', '/');
    assert r == dirName;
  }

  /** "(..)photo" does not end with ")", so it is an ordinary static segment. */
  lemma InterceptLikeNameIsStatic()
    ensures ProcessDirectory("(..)photo", "").routeType == Regular
    ensures ProcessDirectory("(..)photo", "").newRoutePath == "(..)photo"
  {
    assert !EndsWith("(..)photo", ")") && !StartsWith("(..)photo", "@") && !StartsWith("(..)photo", "[");
    StaticUnderRoot("(..)photo");
  }

  // ---------------------------------------------------------------------------
  // Files
  // ---------------------------------------------------------------------------

  const RelevantExtensions: seq<string> := [".js", ".jsx", ".ts", ".tsx", ".css", ".scss", ".json", ".mjs"]
  const ScriptExtensions: seq<string> := [".js", ".jsx", ".ts", ".tsx"]
  const SpecialFileNames: seq<string> := ["layout", "page", "loading", "error", "not-found", "template", "default", "global-error"]
  const MetadataNames: seq<string> := ["opengraph-image", "twitter-image", "icon", "apple-icon", "manifest", "sitemap", "robots", "favicon.ico"]

  predicate IsSpecialAppRouterFile(baseName: string) {
    baseName in SpecialFileNames
  }

  predicate IsMetadataFile(fileName: string) {
    ParseName(fileName) in MetadataNames || fileName in MetadataNames
  }

  /** `getMetadataType` */
  function GetMetadataType(fileName: string): string {
    var base := ParseName(fileName);
    if Contains(base, "opengraph") then "opengraph-image"
    else if Contains(base, "twitter") then "twitter-image"
    else if base == "icon" then "icon"
    else if base == "apple-icon" then "apple-icon"
    else if base == "manifest" then "manifest"
    else if base == "sitemap" then "sitemap"
    else if base == "robots" then "robots"
    else if fileName == "favicon.ico" then "favicon"
    else "metadata"
  }

  predicate IsColocatedFile(fileName: string, extension: string) {
    var base := ParseName(fileName);
    if IsSpecialAppRouterFile(base) || base == "route" || IsMetadataFile(fileName) then false
    else extension in ScriptExtensions
  }

  /** What `processFile` does with a file: the branch it takes. */
  datatype FileRole =
    | Irrelevant
    | SpecialFile(fileType: string)
    | MetadataFile(metadataType: string)
    | ApiRoute
    | GlobalStyles
    | Colocated
    | Unclassified

  /** `processFile`'s branches in their order. */
  function ProcessFile(fileName: string): (r: FileRole)
    ensures r.Irrelevant? <==> Extname(fileName) !in RelevantExtensions
    ensures r.SpecialFile? ==> r.fileType == ParseName(fileName) && r.fileType in SpecialFileNames
    ensures r.GlobalStyles? ==> fileName == "globals.css" || fileName == "global.css"
  {
    var base := ParseName(fileName);
    var ext := Extname(fileName);
    if ext !in RelevantExtensions then Irrelevant
    else if IsSpecialAppRouterFile(base) then SpecialFile(base)
    else if IsMetadataFile(fileName) then MetadataFile(GetMetadataType(fileName))
    else if base == "route" then ApiRoute
    else if fileName == "globals.css" || fileName == "global.css" then GlobalStyles
    else if IsColocatedFile(fileName, ext) then Colocated
    else Unclassified
  }

  /** A name without a dot has no extension. */
  lemma NoDotNoExtension(name: string)
    requires '.' !in name
    ensures Extname(name) == ""
  {
  }

  /** The extension of a name whose last dot is at position `d > 0`. */
  lemma ExtensionAt(name: string, d: nat)
    requires 0 < d < |name| && name[d] == '.' && '.' !in name[d + 1..] && name != ".."
    ensures Extname(name) == name[d..]
  {
  }

  /** No name of the metadata list has an extension `processFile` looks at. */
  lemma MetadataNamesIrrelevant(fileName: string)
    requires fileName in MetadataNames
    ensures Extname(fileName) !in RelevantExtensions
  {
    if fileName == "favicon.ico" {
      ExtensionAt(fileName, 7);
    } else {
      NoDotNoExtension(fileName);
    }
  }

  /** The name of a file whose name is in the metadata list is never looked at: its extension is not relevant. */
  lemma MetadataByBase(fileName: string)
    requires Extname(fileName) in RelevantExtensions
    ensures IsMetadataFile(fileName) <==> ParseName(fileName) in MetadataNames
  {
    if fileName in MetadataNames {
      MetadataNamesIrrelevant(fileName);
    }
  }

  /**
    Which branch a file takes: a relevant extension is needed for any of
    them; the special names win over everything, then metadata names, then
    `route`.
   */
  lemma FileRoles(fileName: string)
    ensures var r := ProcessFile(fileName); var base := ParseName(fileName); var ext := Extname(fileName);
      (r.SpecialFile? <==> ext in RelevantExtensions && base in SpecialFileNames)
      && (r.SpecialFile? ==> r.fileType == base)
      && (r.MetadataFile? <==> ext in RelevantExtensions && base in MetadataNames)
      && (r.ApiRoute? <==> ext in RelevantExtensions && base == "route")
  {
    var ext := Extname(fileName);
    if ext in RelevantExtensions {
      MetadataByBase(fileName);
    }
    assert "route" !in SpecialFileNames && "route" !in MetadataNames;
  }

  /** Co-located files are the remaining scripts. */
  lemma ColocatedRole(fileName: string)
    ensures var base := ParseName(fileName);
      var script := Extname(fileName) in ScriptExtensions;
      ProcessFile(fileName).Colocated? <==> script && base !in SpecialFileNames && base !in MetadataNames && base != "route"
  {
    var ext := Extname(fileName);
    if ext in ScriptExtensions {
      assert ext in RelevantExtensions;
      MetadataByBase(fileName);
    }
  }

  /**
    A metadata file's type is its base name, except for a base name of
    "favicon.ico" (as in "favicon.ico.js"), which is typed "metadata".
   */
  lemma MetadataTypeIsBase(fileName: string)
    requires ProcessFile(fileName).MetadataFile?
    ensures ProcessFile(fileName).metadataType == if ParseName(fileName) == "favicon.ico" then "metadata" else ParseName(fileName)
  {
    FileRoles(fileName);
    var base := ParseName(fileName);
    if fileName == "favicon.ico" {
      MetadataNamesIrrelevant(fileName);
    }
    OpengraphOnlyIn(base);
    TwitterOnlyIn(base);
  }

  /** Of the metadata names only "opengraph-image" mentions "opengraph". */
  lemma OpengraphOnlyIn(base: string)
    requires base in MetadataNames
    ensures Contains(base, "opengraph") <==> base == "opengraph-image"
  {
    if base == "opengraph-image" {
      ContainsAt(base, "opengraph", 0);
    } else {
      NoContains(base, "opengraph", 'h');
    }
  }

  /** Of the metadata names only "twitter-image" mentions "twitter". */
  lemma TwitterOnlyIn(base: string)
    requires base in MetadataNames
    ensures Contains(base, "twitter") <==> base == "twitter-image"
  {
    if base == "twitter-image" {
      ContainsAt(base, "twitter", 0);
    } else {
      NoContains(base, "twitter", 'w');
    }
  }

  /** A text without the character `c` contains no string that has `c`. */
  lemma {:induction false} NoContains(s: string, sub: string, c: char)
    requires c in sub && c !in s
    ensures !Contains(s, sub)
    decreases |s|
  {
    if s != [] {
      NoContains(s[1..], sub, c);
    }
  }

  /** The favicon is listed as metadata but its extension is never looked at. */
  lemma FaviconIgnored()
    ensures ProcessFile("favicon.ico") == Irrelevant
  {
    MetadataNamesIrrelevant("favicon.ico");
  }

  // ---------------------------------------------------------------------------
  // Route folders
  // ---------------------------------------------------------------------------

  /** The parts of a folder's `routeInfo` that decide `hasRouteContent`. */
  datatype RouteContent = RouteContent(
    isPage: bool, hasLayout: bool, children: nat,
    specialFiles: set<string>, metadataFiles: set<string>, colocatedFiles: nat, isPrivateFolder: bool)

  /** `hasRouteContent` */
  predicate HasRouteContent(r: RouteContent) {
    r.isPage || r.hasLayout || r.children > 0 || |r.specialFiles| > 0
    || |r.metadataFiles| > 0 || r.colocatedFiles > 0 || r.isPrivateFolder
  }

  /** What one file adds to its folder's `routeInfo`. */
  function AddFile(r: RouteContent, fileName: string): RouteContent {
    match ProcessFile(fileName)
    case SpecialFile(t) =>
      r.(specialFiles := r.specialFiles + {t}, hasLayout := r.hasLayout || t == "layout", isPage := r.isPage || t == "page")
    case MetadataFile(t) => r.(metadataFiles := r.metadataFiles + {t})
    case Colocated => r.(colocatedFiles := r.colocatedFiles + 1)
    case _ => r
  }

  function AddFiles(r: RouteContent, fileNames: seq<string>): RouteContent
    decreases |fileNames|
  {
    if fileNames == [] then r else AddFiles(AddFile(r, fileNames[0]), fileNames[1..])
  }

  /** A new folder: private when its name starts with "_". */
  function EmptyFolder(folderName: string): RouteContent {
    RouteContent(false, false, 0, {}, {}, 0, StartsWith(folderName, "_"))
  }

  /**
    A folder without subfolders is kept as a route exactly when its name
    starts with "_" or one of its files is special, metadata or co-located:
    a folder holding only `route.ts` handlers or style sheets is not a route.
   */
  lemma {:induction false} LeafFolderKept(folderName: string, fileNames: seq<string>)
    ensures HasRouteContent(AddFiles(EmptyFolder(folderName), fileNames))
        <==> StartsWith(folderName, "_") || exists i :: 0 <= i < |fileNames| && Contributes(fileNames[i])
  {
    AddFilesContent(EmptyFolder(folderName), fileNames);
  }

  predicate Contributes(fileName: string) {
    var r := ProcessFile(fileName);
    r.SpecialFile? || r.MetadataFile? || r.Colocated?
  }

  lemma AddFileContent(r: RouteContent, fileName: string)
    ensures HasRouteContent(AddFile(r, fileName)) <==> HasRouteContent(r) || Contributes(fileName)
  {
    match ProcessFile(fileName)
    case SpecialFile(t) => assert t in r.specialFiles + {t};
    case MetadataFile(t) => assert t in r.metadataFiles + {t};
    case _ =>
  }

  lemma {:induction false} AddFilesContent(r: RouteContent, fileNames: seq<string>)
    ensures HasRouteContent(AddFiles(r, fileNames))
        <==> HasRouteContent(r) || exists i :: 0 <= i < |fileNames| && Contributes(fileNames[i])
    decreases |fileNames|
  {
    if fileNames != [] {
      var next := AddFile(r, fileNames[0]);
      AddFilesContent(next, fileNames[1..]);
      AddFileContent(r, fileNames[0]);
      if exists i :: 0 <= i < |fileNames[1..]| && Contributes(fileNames[1..][i]) {
        var i :| 0 <= i < |fileNames[1..]| && Contributes(fileNames[1..][i]);
        assert fileNames[1..][i] == fileNames[i + 1];
      }
      if exists i :: 0 <= i < |fileNames| && Contributes(fileNames[i]) {
        var i :| 0 <= i < |fileNames| && Contributes(fileNames[i]);
        if i > 0 {
          assert fileNames[1..][i - 1] == fileNames[i];
        }
      }
    }
  }

  // ---------------------------------------------------------------------------
  // File text heuristics
  // ---------------------------------------------------------------------------

  const HttpMethods: seq<string> := ["GET", "POST", "PUT", "DELETE", "PATCH", "HEAD", "OPTIONS"]

  /** Any of the four export patterns for `name`, searched anywhere in the text. */
  predicate MethodExported(content: string, name: string) {
    Search(content, t => ExportAsyncFunction(t, name))
    || Search(content, t => ExportPlainFunction(t, name))
    || Search(content, t => ExportConst(t, name))
    || Search(content, t => ExportBraces(t, name))
  }

  /** The names of `names` that the text exports, in the order of `names`. */
  function ExportedMethods(names: seq<string>, content: string): (r: seq<string>)
    ensures forall m :: m in r <==> m in names && MethodExported(content, m)
    ensures Subsequence(r, names)
  {
    if names == [] then []
    else
      var rest := ExportedMethods(names[1..], content);
      if MethodExported(content, names[0]) then [names[0]] + rest else rest
  }

  /** `extractApiMethods`; `None` stands for a file that cannot be read. */
  function ExtractApiMethods(content: Option<string>): (r: seq<string>)
    ensures |r| >= 1 && Subsequence(r, HttpMethods)
    ensures content.None? ==> r == ["GET"]
    ensures content.Some? ==> forall m :: m in HttpMethods && MethodExported(content.value, m) ==> m in r
    ensures content.Some? ==> forall m :: m in r && m != "GET" ==> MethodExported(content.value, m)
    ensures content.Some? && !MethodExported(content.value, "GET") && "GET" in r ==> r == ["GET"]
  {
    match content
    case None => assert Subsequence(["GET"], HttpMethods); ["GET"]
    case Some(text) =>
      var found := ExportedMethods(HttpMethods, text);
      if |found| > 0 then found else assert Subsequence(["GET"], HttpMethods); ["GET"]
  }

  predicate UsesServer(content: string) {
    Contains(content, "'use server'") || Contains(content, "\"use server\"")
  }

  /**
    `extractServerActions`: a marker entry and one entry per exported async
    function, for a "use server" file. Every match the `exec` loop reaches
    is listed after the marker.
   */
  function ExtractServerActions(content: Option<string>): (r: seq<string>)
    ensures content.None? || !UsesServer(content.value) ==> r == []
    ensures content.Some? && UsesServer(content.value) ==> |r| >= 1 && r[0] == "server-actions"
    ensures content.Some? && UsesServer(content.value) ==>
      forall p :: 0 <= p < |content.value| && Reaches(content.value, p) && ServerActionAt(content.value[p..]).Some? ==>
        ServerActionAt(content.value[p..]).value.0 in r[1..]
  {
    match content
    case Some(text) =>
      if UsesServer(text) then
        assert forall p :: 0 <= p < |text| && Reaches(text, p) && ServerActionAt(text[p..]).Some? ==>
          ServerActionAt(text[p..]).value.0 in ServerActionNames(text) by {
          forall p | 0 <= p < |text| && Reaches(text, p) && ServerActionAt(text[p..]).Some?
            ensures ServerActionAt(text[p..]).value.0 in ServerActionNames(text)
          {
            var i := ServerActionsComplete(text, p);
          }
        }
        var r := ["server-actions"] + ServerActionNames(text);
        assert r[1..] == ServerActionNames(text);
        r
      else []
    case None => []
  }

  /**
    Every match the `exec` loop reaches is listed, in text order: its name
    is followed by exactly the names found past the match.
   */
  lemma ServerActionsComplete(t: string, p: nat) returns (i: nat)
    requires p < |t| && Reaches(t, p) && ServerActionAt(t[p..]).Some?
    ensures i < |ServerActionNames(t)| && ServerActionNames(t)[i] == ServerActionAt(t[p..]).value.0
    ensures ServerActionNames(t)[i + 1..] == ServerActionNames(t[p..][ServerActionAt(t[p..]).value.1..])
  {
    var pre := ScanSplit(t, p);
    var u := t[p..];
    var at := ServerActionAt(u);
    var rest := ServerActionNames(u[at.value.1..]);
    var names := NamesUnfold(u, at, at.value.1, rest);
    PickAfter(ServerActionNames(t), pre, at.value.0, rest);
    i := |pre|;
  }

  /** A name placed between two runs of names sits right after the first run. */
  lemma PickAfter(all: seq<string>, pre: seq<string>, name: string, rest: seq<string>)
    requires all == pre + ([name] + rest)
    ensures 0 <= |pre| < |all| && all[|pre|] == name && all[|pre| + 1..] == rest
  {
    assert all[|pre|..] == [name] + rest;
  }

  /** The names found before a reached position, then those found from it on. */
  lemma {:induction false} ScanSplit(t: string, p: nat) returns (pre: seq<string>)
    requires p <= |t| && Reaches(t, p)
    ensures ServerActionNames(t) == pre + ServerActionNames(t[p..])
    decreases |t|
  {
    if p == 0 {
      pre := [];
      assert t[0..] == t;
    } else {
      var skip := ScanStep(t);
      assert skip <= p && Reaches(t[skip..], p - skip);
      var at := ServerActionAt(t);
      var rest := ServerActionNames(t[skip..]);
      var names := NamesUnfold(t, at, skip, rest);
      var later := ScanSplit(t[skip..], p - skip);
      assert t[skip..][p - skip..] == t[p..];
      assert rest == later + ServerActionNames(t[p..]);
      if at.Some? {
        pre := [at.value.0] + later;
        assert names == [at.value.0] + rest;
      } else {
        pre := later;
        assert names == rest;
      }
    }
  }

  /** Every server-action name is a function the text exports as `export async function NAME`. */
  lemma {:induction false} ServerActionsExported(t: string)
    ensures forall i :: 0 <= i < |ServerActionNames(t)| ==> Search(t, u => ExportAsyncFunction(u, ServerActionNames(t)[i]))
    decreases |t|
  {
    if t != [] {
      var at := ServerActionAt(t);
      var skip := if at.Some? then at.value.1 else 1;
      var rest := ServerActionNames(t[skip..]);
      ServerActionsExported(t[skip..]);
      var names := NamesUnfold(t, at, skip, rest);
      var first := if at.Some? then Some(at.value.0) else None;
      if at.Some? {
        ServerActionStarts(t);
      }
      ExportedShift(t, skip, first, rest, names);
    }
  }

  /** Exported names found past `skip`, behind a name exported at the start, are exported in `t`. */
  lemma ExportedShift(t: string, skip: nat, first: Option<string>, rest: seq<string>, names: seq<string>)
    requires skip <= |t|
    requires forall i :: 0 <= i < |rest| ==> Search(t[skip..], u => ExportAsyncFunction(u, rest[i]))
    requires first.Some? ==> ExportAsyncFunction(t, first.value)
    requires names == if first.Some? then [first.value] + rest else rest
    ensures forall i :: 0 <= i < |names| ==> Search(t, u => ExportAsyncFunction(u, names[i]))
  {
    if first.Some? {
      SearchAt(t, u => ExportAsyncFunction(u, names[0]));
    }
    forall i | 0 <= i < |names| ensures Search(t, u => ExportAsyncFunction(u, names[i])) {
      if first.None? || i > 0 {
        var j := if first.Some? then i - 1 else i;
        assert names[i] == rest[j];
        SearchLater(t, skip, u => ExportAsyncFunction(u, rest[j]));
      }
    }
  }

  /** One step of the global `exec` loop: a match moves past itself, a miss moves one character. */
  lemma NamesUnfold(t: string, at: Option<(string, nat)>, skip: nat, rest: seq<string>) returns (names: seq<string>)
    requires t != [] && at == ServerActionAt(t)
    requires skip == (if at.Some? then at.value.1 else 1) && skip <= |t|
    requires rest == ServerActionNames(t[skip..])
    ensures names == ServerActionNames(t)
    ensures names == (if at.Some? then [at.value.0] + rest else rest)
  {
    names := ServerActionNames(t);
  }

  lemma ServerActionStarts(t: string)
    requires ServerActionAt(t).Some?
    ensures ExportAsyncFunction(t, ServerActionAt(t).value.0)
  {
  }

  /** A match in a suffix is a match. */
  lemma SearchLater(t: string, k: nat, m: string -> bool)
    requires k <= |t| && Search(t[k..], m)
    ensures Search(t, m)
  {
    SearchAt(t[k..], m);
    var i :| 0 <= i <= |t[k..]| && m(t[k..][i..]);
    assert t[k..][i..] == t[k + i..];
    SearchAt(t, m);
  }

  datatype ApiRouteType = StaticApi | DynamicApi | CatchAllApi

  /** `determineApiRouteType` */
  function DetermineApiRouteType(routePath: string): (t: ApiRouteType)
    ensures t == StaticApi <==> !(Contains(routePath, "[") && Contains(routePath, "]"))
    ensures t == CatchAllApi ==> Contains(routePath, "[...")
  {
    if Contains(routePath, "[") && Contains(routePath, "]") then
      if Contains(routePath, "[...") then CatchAllApi else DynamicApi
    else StaticApi
  }

  /** Below a dynamic folder an API route is dynamic, below a catch-all folder catch-all. */
  lemma ApiRouteTypeOfFolder(dirName: string, current: string)
    requires ProcessDirectory(dirName, current).routeType in {Dynamic, CatchAll, OptionalCatchAll}
    ensures var r := ProcessDirectory(dirName, current);
      DetermineApiRouteType(r.newRoutePath) != StaticApi
      && (r.routeType != Dynamic ==> DetermineApiRouteType(r.newRoutePath) == CatchAllApi)
  {
    var r := ProcessDirectory(dirName, current);
    FolderRoutePath(dirName, current);
    assert StartsWith(dirName, "[") && EndsWith(dirName, "]");
    BracketsSurvive(dirName, current);
    if r.routeType == CatchAll {
      assert StartsWith(dirName, "[...");
      JoinKeepsInfix(current, dirName, "[...", 0);
    } else if r.routeType == OptionalCatchAll {
      assert StartsWith(dirName, "[[...");
      OptionalSurvives(dirName, current);
    }
  }

  /** The brackets of a dynamic folder name survive the join. */
  lemma BracketsSurvive(dirName: string, current: string)
    requires StartsWith(dirName, "[") && EndsWith(dirName, "]")
    ensures Contains(JoinSegment(current, dirName), "[") && Contains(JoinSegment(current, dirName), "]")
  {
    assert dirName[0..1] == "[" && dirName[|dirName| - 1..|dirName|] == "]";
    JoinKeepsInfix(current, dirName, "[", 0);
    JoinKeepsInfix(current, dirName, "]", |dirName| - 1);
  }

  /** The `[...` inside an optional catch-all folder name survives the join. */
  lemma OptionalSurvives(dirName: string, current: string)
    requires StartsWith(dirName, "[[...")
    ensures Contains(JoinSegment(current, dirName), "[...")
  {
    assert dirName[1..5] == "[...";
    JoinKeepsInfix(current, dirName, "[...", 1);
  }

  /** Text of the folder name without backslashes survives the join. */
  lemma JoinKeepsInfix(current: string, dirName: string, sub: string, i: nat)
    requires i + |sub| <= |dirName| && dirName[i..i + |sub|] == sub && '\\' !in sub
    ensures Contains(JoinSegment(current, dirName), sub)
  {
    var joined := if current == "" then dirName else current + "/" + dirName;
    var off := |joined| - |dirName|;
    var p := MapChars(joined, c => c != '\\', '/');
    assert p == JoinSegment(current, dirName);
    var at := off + i;
    forall k | 0 <= k < |sub| ensures p[at + k] == sub[k] {
      assert joined[at + k] == dirName[i + k];
      assert dirName[i + k] == sub[k];
    }
    assert p[at..][..|sub|] == sub;
    ContainsAt(p, sub, at);
  }

  // ---------------------------------------------------------------------------
  // Layout inheritance
  // ---------------------------------------------------------------------------

  datatype Layout = Layout(path: string, fullPath: string, fileName: string)

  /** One step up the route path: `path.dirname`, with "." read as "". */
  function Up(p: string): (r: string)
    requires p != "" && p != "/"
    ensures |r| < |p|
  {
    DirnameShrinks(p);
    var d := Dirname(p);
    if d == "." then "" else d
  }

  /** The paths the inheritance walk visits, listed root-first: ends with `p`, starts at "" or "/". */
  function Visited(p: string): (vs: seq<string>)
    ensures |vs| >= 1 && vs[|vs| - 1] == p && (vs[0] == "" || vs[0] == "/")
    decreases |p|
  {
    if p == "" || p == "/" then [p] else Visited(Up(p)) + [p]
  }

  /** The walk climbs strictly: every visited path is shorter than the ones after it. */
  lemma {:induction false} VisitedIncreasing(p: string)
    ensures forall i, j :: 0 <= i < j < |Visited(p)| ==> |Visited(p)[i]| < |Visited(p)[j]|
    decreases |p|
  {
    if p != "" && p != "/" {
      var pre := Visited(Up(p));
      VisitedIncreasing(Up(p));
      VisitedBelow(Up(p));
      var vs := Visited(p);
      assert vs == pre + [p];
      forall i, j | 0 <= i < j < |vs| ensures |vs[i]| < |vs[j]| {
        if j < |pre| {
          assert vs[i] == pre[i] && vs[j] == pre[j];
        } else {
          assert vs[i] == pre[i];
        }
      }
    }
  }

  /** No path visited from `p` is longer than `p`. */
  lemma {:induction false} VisitedBelow(p: string)
    ensures forall i :: 0 <= i < |Visited(p)| ==> |Visited(p)[i]| <= |p|
    decreases |p|
  {
    if p != "" && p != "/" {
      var pre := Visited(Up(p));
      VisitedBelow(Up(p));
      assert Visited(p) == pre + [p];
      forall i | 0 <= i < |pre| ensures |Visited(p)[i]| <= |p| {
        assert Visited(p)[i] == pre[i];
      }
    }
  }

  /** `layoutsByPath`: every layout under its path, a later one replacing an earlier one. */
  function LayoutIndex(layouts: seq<Layout>): (m: map<string, Layout>)
    ensures forall k :: k in m ==> m[k].path == k && m[k] in layouts
    ensures forall i :: 0 <= i < |layouts| ==> layouts[i].path in m
    decreases |layouts|
  {
    if layouts == [] then map[]
    else
      var pre := layouts[..|layouts| - 1];
      var last := layouts[|layouts| - 1];
      assert forall i :: 0 <= i < |pre| ==> pre[i] == layouts[i];
      LayoutIndex(pre)[last.path := last]
  }

  /** The layouts found at the visited paths, in the order of the paths. */
  function ChainOf(m: map<string, Layout>, vs: seq<string>): (chain: seq<Layout>)
    ensures |chain| <= |vs|
    decreases |vs|
  {
    if vs == [] then []
    else ChainOf(m, vs[..|vs| - 1]) + (if vs[|vs| - 1] in m then [m[vs[|vs| - 1]]] else [])
  }

  function LayoutChain(m: map<string, Layout>, p: string): seq<Layout> {
    ChainOf(m, Visited(p))
  }

  lemma ChainOfSnoc(m: map<string, Layout>, vs: seq<string>, v: string)
    ensures ChainOf(m, vs + [v]) == ChainOf(m, vs) + (if v in m then [m[v]] else [])
  {
    assert (vs + [v])[..|vs|] == vs;
  }

  /**
    Over paths of strictly increasing length, each chain entry is an indexed
    layout found at one of the paths, and the entries' paths grow strictly.
   */
  lemma {:induction false} ChainIncreasing(m: map<string, Layout>, vs: seq<string>)
    requires forall k :: k in m ==> m[k].path == k
    requires forall i, j :: 0 <= i < j < |vs| ==> |vs[i]| < |vs[j]|
    ensures forall i :: 0 <= i < |ChainOf(m, vs)| ==> ChainOf(m, vs)[i].path in vs && ChainOf(m, vs)[i] in m.Values
    ensures PathsGrow(ChainOf(m, vs))
    decreases |vs|
  {
    if vs != [] {
      var pre := vs[..|vs| - 1];
      var v := vs[|vs| - 1];
      assert vs == pre + [v];
      assert forall i, j :: 0 <= i < j < |pre| ==> |pre[i]| < |pre[j]| by {
        forall i, j | 0 <= i < j < |pre| ensures |pre[i]| < |pre[j]| {
          assert pre[i] == vs[i] && pre[j] == vs[j];
        }
      }
      ChainIncreasing(m, pre);
      ChainOfSnoc(m, pre, v);
      var c := ChainOf(m, pre);
      if v in m {
        forall i | 0 <= i < |c| ensures |c[i].path| < |m[v].path| {
          var a :| 0 <= a < |pre| && pre[a] == c[i].path;
          assert pre[a] == vs[a];
        }
        assert m[v] in m.Values;
        GrowSnoc(c, m[v]);
      }
    }
  }

  /** The paths of a chain grow strictly in length. */
  predicate PathsGrow(chain: seq<Layout>) {
    forall i, j :: 0 <= i < j < |chain| ==> |chain[i].path| < |chain[j].path|
  }

  lemma GrowSnoc(c: seq<Layout>, x: Layout)
    requires PathsGrow(c)
    requires forall i :: 0 <= i < |c| ==> |c[i].path| < |x.path|
    ensures PathsGrow(c + [x])
  {
    var d := c + [x];
    forall i, j | 0 <= i < j < |d| ensures |d[i].path| < |d[j].path| {
      assert d[i] == c[i];
    }
  }

  /**
    A layout chain lists only layouts at the route path or at one of its
    ancestors, root first: each entry's path is shorter than the next one's.
   */
  lemma LayoutChainRootFirst(layouts: seq<Layout>, p: string)
    ensures var chain := LayoutChain(LayoutIndex(layouts), p);
      |chain| <= |Visited(p)|
      && (forall i :: 0 <= i < |chain| ==> chain[i] in layouts && chain[i].path in Visited(p))
      && (forall i, j :: 0 <= i < j < |chain| ==> |chain[i].path| < |chain[j].path|)
  {
    var m := LayoutIndex(layouts);
    var vs := Visited(p);
    VisitedIncreasing(p);
    ChainIncreasing(m, vs);
    var chain := ChainOf(m, vs);
    forall i | 0 <= i < |chain| ensures chain[i] in layouts {
      assert chain[i] in m.Values;
      var k :| k in m && m[k] == chain[i];
    }
  }

  /** One step of the walk: the chain at `c` is the chain at its parent, then the layout at `c`. */
  lemma ChainStep(m: map<string, Layout>, c: string, rest: seq<Layout>)
    ensures ChainOf(m, Visited(c)) + rest
      == (if c == "" || c == "/" then [] else ChainOf(m, Visited(Up(c)))) + ((if c in m then [m[c]] else []) + rest)
  {
    var pre := if c == "" || c == "/" then [] else Visited(Up(c));
    VisitedSnoc(c);
    ChainOfSnoc(m, pre, c);
    Associative(ChainOf(m, pre), if c in m then [m[c]] else [], rest);
  }

  lemma VisitedSnoc(c: string)
    ensures Visited(c) == (if c == "" || c == "/" then [] else Visited(Up(c))) + [c]
  {
  }

  lemma Associative<T>(a: seq<T>, b: seq<T>, c: seq<T>)
    ensures (a + b) + c == a + (b + c)
  {
  }

  /** The walk of `buildLayoutInheritance` for one route. */
  method LayoutChainOf(m: map<string, Layout>, p: string) returns (chain: seq<Layout>)
    ensures chain == LayoutChain(m, p)
  {
    var current: Option<string> := Some(p);
    chain := [];
    ghost var goal := LayoutChain(m, p);
    while current.Some?
      invariant current.Some? ==> goal == ChainOf(m, Visited(current.value)) + chain
      invariant current.None? ==> chain == goal
      decreases if current.Some? then |current.value| + 1 else 0
    {
      var c := current.value;
      ChainStep(m, c, chain);
      var here := if c in m then [m[c]] else [];
      chain := here + chain;
      if c == "" || c == "/" {
        assert goal == [] + chain;
        current := None;
      } else {
        var d := Dirname(c);
        if d == "." {
          d := "";
        }
        assert d == Up(c);
        current := Some(d);
      }
    }
  }

  /** A route as the relationship passes see it. */
  datatype Route = Route(
    path: string, isPage: bool, routeType: RouteType,
    layoutChain: Option<seq<Layout>>, parallelSlots: Option<seq<ParallelSlot>>)

  datatype ParallelSlot = ParallelSlot(slot: string, path: string, parentPath: string)

  /** A route carrying the layout chain along its path. */
  function WithChain(m: map<string, Layout>, r: Route): Route {
    r.(layoutChain := Some(LayoutChain(m, r.path)))
  }

  /** `buildLayoutInheritance`: every route gets the chain of layouts along its path. */
  method BuildLayoutInheritance(routes: seq<Route>, layouts: seq<Layout>) returns (out: seq<Route>)
    ensures |out| == |routes|
    ensures forall i :: 0 <= i < |routes| ==> out[i] == WithChain(LayoutIndex(layouts), routes[i])
  {
    var m := IndexLayouts(layouts);
    out := [];
    for i := 0 to |routes|
      invariant |out| == i
      invariant forall j :: 0 <= j < i ==> out[j] == WithChain(m, routes[j])
    {
      var chain := LayoutChainOf(m, routes[i].path);
      var r := routes[i].(layoutChain := Some(chain));
      assert r == WithChain(m, routes[i]);
      ghost var prev := out;
      out := out + [r];
      assert forall j :: 0 <= j < i ==> out[j] == prev[j];
      assert out[i] == r;
    }
  }

  /** The `forEach` that fills `layoutsByPath`. */
  method IndexLayouts(layouts: seq<Layout>) returns (m: map<string, Layout>)
    ensures m == LayoutIndex(layouts)
  {
    m := map[];
    for i := 0 to |layouts|
      invariant m == LayoutIndex(layouts[..i])
    {
      assert layouts[..i + 1][..i] == layouts[..i];
      m := m[layouts[i].path := layouts[i]];
    }
    assert layouts[..|layouts|] == layouts;
  }

  // ---------------------------------------------------------------------------
  // Parallel slots, intercepting targets and API groups
  // ---------------------------------------------------------------------------

  function ParentOf(s: ParallelSlot): string { s.parentPath }

  /** The route after `mapParallelRoutes`: its slots, when some slot's parent is its path. */
  function WithSlots(r: Route, slots: seq<ParallelSlot>): Route {
    var g := Group(slots, ParentOf, r.path);
    if g != [] then r.(parallelSlots := Some(g)) else r
  }

  /** `mapParallelRoutes` */
  method MapParallelRoutes(routes: seq<Route>, slots: seq<ParallelSlot>) returns (out: seq<Route>)
    ensures |out| == |routes| && forall i :: 0 <= i < |routes| ==> out[i] == WithSlots(routes[i], slots)
  {
    var byParent, order := Collect(slots, ParentOf);
    out := [];
    for i := 0 to |routes|
      invariant |out| == i && forall j :: 0 <= j < i ==> out[j] == WithSlots(routes[j], slots)
    {
      var r := routes[i];
      SlotLookup(r, slots, byParent);
      if r.path in byParent {
        r := r.(parallelSlots := Some(byParent[r.path]));
      }
      out := out + [r];
    }
  }

  /** Looking a route's path up in the collected groups gives its slots, if any. */
  lemma SlotLookup(r: Route, slots: seq<ParallelSlot>, byParent: map<string, seq<ParallelSlot>>)
    requires forall k :: k in byParent <==> k in Keys(slots, ParentOf)
    requires forall k :: k in byParent ==> byParent[k] == Group(slots, ParentOf, k)
    ensures WithSlots(r, slots) == if r.path in byParent then r.(parallelSlots := Some(byParent[r.path])) else r
  {
    if r.path in byParent {
      assert r.path in Keys(slots, ParentOf);
      var k :| 0 <= k < |slots| && ParentOf(slots[k]) == r.path;
      GroupMember(slots, ParentOf, k);
    } else {
      GroupAbsent(slots, ParentOf, r.path);
    }
  }

  /** After `mapParallelRoutes` a route lists exactly the slots whose parent is its path. */
  lemma SlotsBelongToRoute(r: Route, slots: seq<ParallelSlot>)
    ensures var w := WithSlots(r, slots);
      (forall i :: 0 <= i < |slots| && slots[i].parentPath == r.path ==> w.parallelSlots.Some? && slots[i] in w.parallelSlots.value)
      && ((exists i :: 0 <= i < |slots| && slots[i].parentPath == r.path) ==>
            forall j :: 0 <= j < |w.parallelSlots.value| ==> w.parallelSlots.value[j].parentPath == r.path)
  {
    forall i | 0 <= i < |slots| && slots[i].parentPath == r.path
      ensures WithSlots(r, slots).parallelSlots.Some? && slots[i] in WithSlots(r, slots).parallelSlots.value
    {
      GroupMember(slots, ParentOf, i);
    }
    if exists i :: 0 <= i < |slots| && slots[i].parentPath == r.path {
      var i :| 0 <= i < |slots| && slots[i].parentPath == r.path;
      GroupMember(slots, ParentOf, i);
      var g := Group(slots, ParentOf, r.path);
      assert WithSlots(r, slots).parallelSlots.value == g;
      forall j | 0 <= j < |g| ensures g[j].parentPath == r.path {
        assert ParentOf(g[j]) == r.path;
      }
    }
  }

  /** The first route whose path ends with `segment` (`Array.prototype.find`). */
  function FindTarget(routes: seq<Route>, segment: string): (r: Option<nat>)
    ensures r.Some? ==> r.value < |routes| && EndsWith(routes[r.value].path, segment)
    ensures r.Some? ==> forall j :: 0 <= j < r.value ==> !EndsWith(routes[j].path, segment)
    ensures r.None? ==> forall j :: 0 <= j < |routes| ==> !EndsWith(routes[j].path, segment)
    decreases |routes|
  {
    if routes == [] then None
    else if EndsWith(routes[0].path, segment) then Some(0)
    else match FindTarget(routes[1..], segment)
      case None => None
      case Some(k) => Some(k + 1)
  }

  /** The intercepting records that target route `j`, in order. */
  function InterceptedBy(records: seq<FolderRecord>, routes: seq<Route>, j: nat): seq<FolderRecord>
    decreases |records|
  {
    if records == [] then []
    else
      var last := records[|records| - 1];
      InterceptedBy(records[..|records| - 1], routes, j)
        + (if last.InterceptRecord? && FindTarget(routes, last.targetSegment) == Some(j) then [last] else [])
  }

  /** `connectInterceptingRoutes`: each record's target, and each route's `interceptedBy` list. */
  method ConnectInterceptingRoutes(records: seq<FolderRecord>, routes: seq<Route>) returns (targets: seq<Option<nat>>, interceptedBy: seq<seq<FolderRecord>>)
    requires forall i :: 0 <= i < |records| ==> records[i].InterceptRecord?
    ensures |targets| == |records| && forall i :: 0 <= i < |records| ==> targets[i] == FindTarget(routes, records[i].targetSegment)
    ensures |interceptedBy| == |routes| && forall j :: 0 <= j < |routes| ==> interceptedBy[j] == InterceptedBy(records, routes, j)
  {
    targets := [];
    interceptedBy := seq(|routes|, _ => []);
    for i := 0 to |records|
      invariant |targets| == i && forall k :: 0 <= k < i ==> targets[k] == FindTarget(routes, records[k].targetSegment)
      invariant |interceptedBy| == |routes| && forall j :: 0 <= j < |routes| ==> interceptedBy[j] == InterceptedBy(records[..i], routes, j)
    {
      var t := FindTarget(routes, records[i].targetSegment);
      assert records[..i + 1][..i] == records[..i];
      targets := targets + [t];
      if t.Some? {
        interceptedBy := interceptedBy[t.value := interceptedBy[t.value] + [records[i]]];
      }
    }
    assert records[..|records|] == records;
  }

  /** Only non-empty segments count; a path without one is grouped under "root". */
  function NonEmpty(parts: seq<string>): (r: seq<string>)
    ensures forall i :: 0 <= i < |r| ==> r[i] != "" && r[i] in parts
  {
    if parts == [] then []
    else if parts[0] == "" then NonEmpty(parts[1..])
    else [parts[0]] + NonEmpty(parts[1..])
  }

  datatype ApiRouteRecord = ApiRouteRecord(path: string, fileName: string, methods: seq<string>, serverActions: seq<string>, routeType: ApiRouteType)

  /** The `groupApiRoutes` key: the first non-empty "/" segment of the path, or "root". */
  function GroupKey(a: ApiRouteRecord): (k: string)
    ensures k != "" && '/' !in k
  {
    var segments := NonEmpty(Split(a.path, '/'));
    if |segments| > 0 then segments[0] else "root"
  }

  /** `groupApiRoutes` */
  method GroupApiRoutes(apis: seq<ApiRouteRecord>) returns (groups: map<string, seq<ApiRouteRecord>>, order: seq<string>)
    ensures order == Keys(apis, GroupKey)
    ensures forall k :: k in groups <==> k in order
    ensures forall k :: k in groups ==> groups[k] == Group(apis, GroupKey, k)
  {
    groups, order := Collect(apis, GroupKey);
  }

  /** Every API route is in the group of its key and no other, and the group sizes add up to the number of routes. */
  lemma ApiGroupsPartition(apis: seq<ApiRouteRecord>)
    ensures forall i :: 0 <= i < |apis| ==> apis[i] in Group(apis, GroupKey, GroupKey(apis[i]))
    ensures forall k, i :: 0 <= i < |Group(apis, GroupKey, k)| ==> GroupKey(Group(apis, GroupKey, k)[i]) == k
    ensures GroupSizes(Keys(apis, GroupKey), apis, GroupKey) == |apis|
  {
    forall i | 0 <= i < |apis| ensures apis[i] in Group(apis, GroupKey, GroupKey(apis[i])) {
      GroupMember(apis, GroupKey, i);
    }
    GroupsPartition(apis, GroupKey);
  }

  // ---------------------------------------------------------------------------
  // Root configuration files
  // ---------------------------------------------------------------------------

  const ConfigNames: seq<string> := ["next.config.js", "next.config.mjs", "tailwind.config.js", "tailwind.config.ts",
                                     "middleware.ts", "middleware.js", "instrumentation.ts", "instrumentation.js"]
  const EnvNames: seq<string> := [".env", ".env.local", ".env.development", ".env.production", ".env.test"]

  datatype ConfigFile = ConfigFile(fileType: string, fileName: string)

  /** `getConfigFileType` */
  function GetConfigFileType(fileName: string): (t: string)
    ensures Contains(fileName, "next.config") ==> t == "next-config"
    ensures t == "middleware" ==> Contains(fileName, "middleware") && !Contains(fileName, "next.config") && !Contains(fileName, "tailwind.config")
    ensures t == "config" <==>
      !Contains(fileName, "next.config") && !Contains(fileName, "tailwind.config")
      && !Contains(fileName, "middleware") && !Contains(fileName, "instrumentation")
  {
    if Contains(fileName, "next.config") then "next-config"
    else if Contains(fileName, "tailwind.config") then "tailwind-config"
    else if Contains(fileName, "middleware") then "middleware"
    else if Contains(fileName, "instrumentation") then "instrumentation"
    else "config"
  }

  /** `parseRootConfigFiles`: the candidates that exist next to the app folder, configuration files first. */
  function RootConfigFiles(present: string -> bool, names: seq<string>, env: seq<string>): (r: seq<ConfigFile>)
    decreases |names| + |env|
  {
    if names != [] then
      (if present(names[0]) then [ConfigFile(GetConfigFileType(names[0]), names[0])] else []) + RootConfigFiles(present, names[1..], env)
    else if env != [] then
      (if present(env[0]) then [ConfigFile("environment", env[0])] else []) + RootConfigFiles(present, [], env[1..])
    else []
  }

  /**
    `parseRootConfigFiles`: the two `for … of` loops that push the existing
    candidates, over the candidate lists it is given (the source's are
    `ConfigNames` and `EnvNames`).
   */
  method ParseRootConfigFiles(present: string -> bool, names: seq<string>, env: seq<string>) returns (configs: seq<ConfigFile>)
    ensures configs == RootConfigFiles(present, names, env)
  {
    configs := [];
    for i := 0 to |names|
      invariant configs + RootConfigFiles(present, names[i..], env) == RootConfigFiles(present, names, env)
    {
      ghost var before := configs;
      var found := if present(names[i]) then [ConfigFile(GetConfigFileType(names[i]), names[i])] else [];
      configs := configs + found;
      RootConfigNext(present, names[i..], env);
      assert names[i..][1..] == names[i + 1..];
      Associative(before, found, RootConfigFiles(present, names[i + 1..], env));
    }
    assert names[|names|..] == [];
    for i := 0 to |env|
      invariant configs + RootConfigFiles(present, [], env[i..]) == RootConfigFiles(present, names, env)
    {
      ghost var before := configs;
      var found := if present(env[i]) then [ConfigFile("environment", env[i])] else [];
      configs := configs + found;
      RootConfigNext(present, [], env[i..]);
      assert env[i..][1..] == env[i + 1..];
      Associative(before, found, RootConfigFiles(present, [], env[i + 1..]));
    }
    assert env[|env|..] == [];
    assert configs + [] == configs;
  }

  /** One candidate at a time: the first existing one, then the rest. */
  lemma RootConfigNext(present: string -> bool, names: seq<string>, env: seq<string>)
    requires names != [] || env != []
    ensures names != [] ==>
      RootConfigFiles(present, names, env)
      == (if present(names[0]) then [ConfigFile(GetConfigFileType(names[0]), names[0])] else []) + RootConfigFiles(present, names[1..], env)
    ensures names == [] ==>
      RootConfigFiles(present, names, env)
      == (if present(env[0]) then [ConfigFile("environment", env[0])] else []) + RootConfigFiles(present, [], env[1..])
  {
  }

  predicate HasMiddleware(configs: seq<ConfigFile>) {
    exists i :: 0 <= i < |configs| && configs[i].fileType == "middleware"
  }

  /** Some existing candidate among `names` is typed "middleware". */
  predicate MiddlewareAmong(present: string -> bool, names: seq<string>) {
    exists i :: 0 <= i < |names| && present(names[i]) && GetConfigFileType(names[i]) == "middleware"
  }

  lemma MiddlewareAmongCons(present: string -> bool, names: seq<string>)
    requires names != []
    ensures MiddlewareAmong(present, names)
      <==> (present(names[0]) && GetConfigFileType(names[0]) == "middleware") || MiddlewareAmong(present, names[1..])
  {
    if MiddlewareAmong(present, names[1..]) {
      var i :| 0 <= i < |names[1..]| && present(names[1..][i]) && GetConfigFileType(names[1..][i]) == "middleware";
      assert names[i + 1] == names[1..][i];
    }
    if MiddlewareAmong(present, names) {
      var i :| 0 <= i < |names| && present(names[i]) && GetConfigFileType(names[i]) == "middleware";
      if i > 0 {
        assert names[1..][i - 1] == names[i];
      }
    }
  }

  lemma HasMiddlewareAppend(a: seq<ConfigFile>, b: seq<ConfigFile>)
    ensures HasMiddleware(a + b) <==> HasMiddleware(a) || HasMiddleware(b)
  {
    if HasMiddleware(b) {
      var k :| 0 <= k < |b| && b[k].fileType == "middleware";
      assert (a + b)[|a| + k] == b[k];
    }
    if HasMiddleware(a + b) {
      var k :| 0 <= k < |a + b| && (a + b)[k].fileType == "middleware";
      if k >= |a| {
        assert b[k - |a|] == (a + b)[k];
      } else {
        assert a[k] == (a + b)[k];
      }
    }
    if HasMiddleware(a) {
      var k :| 0 <= k < |a| && a[k].fileType == "middleware";
      assert (a + b)[k] == a[k];
    }
  }

  /** Environment files never count as middleware; a configuration file does when it exists and its type is "middleware". */
  lemma {:induction false} MiddlewareFrom(present: string -> bool, names: seq<string>, env: seq<string>)
    ensures HasMiddleware(RootConfigFiles(present, names, env)) <==> MiddlewareAmong(present, names)
    decreases |names| + |env|
  {
    if names != [] {
      var head := if present(names[0]) then [ConfigFile(GetConfigFileType(names[0]), names[0])] else [];
      var tail := RootConfigFiles(present, names[1..], env);
      assert RootConfigFiles(present, names, env) == head + tail;
      MiddlewareFrom(present, names[1..], env);
      HasMiddlewareAppend(head, tail);
      MiddlewareAmongCons(present, names);
    } else if env != [] {
      var head := if present(env[0]) then [ConfigFile("environment", env[0])] else [];
      var tail := RootConfigFiles(present, [], env[1..]);
      assert RootConfigFiles(present, names, env) == head + tail;
      MiddlewareFrom(present, [], env[1..]);
      HasMiddlewareAppend(head, tail);
    }
  }

  /** A middleware file name is typed "middleware". */
  lemma MiddlewareType(name: string)
    requires name == "middleware.ts" || name == "middleware.js"
    ensures GetConfigFileType(name) == "middleware"
  {
    assert 'x' in "next.config" && 'x' !in name;
    NoContains(name, "next.config", 'x');
    assert 'c' in "tailwind.config" && 'c' !in name;
    NoContains(name, "tailwind.config", 'c');
    assert StartsWith(name[0..], "middleware");
    ContainsAt(name, "middleware", 0);
  }

  /** An instrumentation file name is not typed "middleware". */
  lemma InstrumentationType(name: string)
    requires name == "instrumentation.ts" || name == "instrumentation.js"
    ensures GetConfigFileType(name) == "instrumentation"
  {
    assert name[..15] == "instrumentation";
    assert 'x' !in name && 'w' !in name;
    PrefixedInstrumentation(name);
  }

  /** A name that starts with "instrumentation" and has neither 'x' nor 'w' is typed "instrumentation". */
  lemma PrefixedInstrumentation(name: string)
    requires StartsWith(name, "instrumentation") && 'x' !in name && 'w' !in name
    ensures GetConfigFileType(name) == "instrumentation"
  {
    assert 'x' in "next.config";
    NoContains(name, "next.config", 'x');
    assert 'w' in "tailwind.config";
    NoContains(name, "tailwind.config", 'w');
    assert 'w' in "middleware";
    NoContains(name, "middleware", 'w');
    assert name[0..] == name;
    ContainsAt(name, "instrumentation", 0);
  }

  /** The four framework configuration names are typed by their prefix. */
  lemma FrameworkConfigType(name: string)
    requires name in ["next.config.js", "next.config.mjs", "tailwind.config.js", "tailwind.config.ts"]
    ensures GetConfigFileType(name) != "middleware"
  {
    if StartsWith(name, "next.config") {
      ContainsAt(name, "next.config", 0);
    } else {
      assert StartsWith(name[0..], "tailwind.config");
      ContainsAt(name, "tailwind.config", 0);
    }
  }

  lemma OtherConfigTypes()
    ensures forall i :: 0 <= i < |ConfigNames| && i != 4 && i != 5 ==> GetConfigFileType(ConfigNames[i]) != "middleware"
  {
    forall i | 0 <= i < |ConfigNames| && i != 4 && i != 5 ensures GetConfigFileType(ConfigNames[i]) != "middleware" {
      if i < 4 {
        FrameworkConfigType(ConfigNames[i]);
      } else {
        InstrumentationType(ConfigNames[i]);
      }
    }
  }

  /** The summary's middleware flag is set exactly when a middleware file exists at the root. */
  lemma MiddlewareDetected(present: string -> bool)
    ensures HasMiddleware(RootConfigFiles(present, ConfigNames, EnvNames)) <==> present("middleware.ts") || present("middleware.js")
  {
    MiddlewareFrom(present, ConfigNames, EnvNames);
    MiddlewareAmongConfig(present);
  }

  /** Among the configuration candidates, exactly the two middleware files are typed "middleware". */
  lemma MiddlewareAmongConfig(present: string -> bool)
    ensures MiddlewareAmong(present, ConfigNames) <==> present("middleware.ts") || present("middleware.js")
  {
    assert ConfigNames[4] == "middleware.ts" && ConfigNames[5] == "middleware.js";
    if MiddlewareAmong(present, ConfigNames) {
      var i :| 0 <= i < |ConfigNames| && present(ConfigNames[i]) && GetConfigFileType(ConfigNames[i]) == "middleware";
      OtherConfigTypes();
      assert i == 4 || i == 5;
    }
    if present("middleware.ts") {
      MiddlewareType("middleware.ts");
      assert present(ConfigNames[4]) && GetConfigFileType(ConfigNames[4]) == "middleware";
    } else if present("middleware.js") {
      MiddlewareType("middleware.js");
      assert present(ConfigNames[5]) && GetConfigFileType(ConfigNames[5]) == "middleware";
    }
  }

  // ---------------------------------------------------------------------------
  // Summary
  // ---------------------------------------------------------------------------

  /** The lists `parseAppRouter` has collected, where the summary only needs their lengths or a few fields. */
  datatype Collected = Collected(
    routes: seq<Route>, layouts: nat, apiRoutes: seq<ApiRouteRecord>, specialFiles: nat, metadataFiles: nat,
    configFiles: seq<ConfigFile>, colocatedFiles: nat, privateFolders: nat,
    routeGroups: nat, parallelRoutes: nat, interceptingRoutes: nat, apiGroups: nat)

  datatype Summary = Summary(
    totalRoutes: nat, totalLayouts: nat, totalApiRoutes: nat, totalSpecialFiles: nat, totalMetadataFiles: nat,
    totalConfigFiles: nat, totalColocatedFiles: nat, totalPrivateFolders: nat,
    routeGroups: nat, parallelRoutes: nat, interceptingRoutes: nat, dynamicRoutes: nat,
    apiGroups: nat, serverActionsCount: nat, maxLayoutDepth: nat,
    hasRouteGroups: bool, hasParallelRoutes: bool, hasInterceptingRoutes: bool, hasDynamicRoutes: bool,
    hasNestedLayouts: bool, hasMetadataFiles: bool, hasServerActions: bool, hasPrivateFolders: bool,
    hasColocatedFiles: bool, hasMiddleware: bool)

  function Pages(routes: seq<Route>): (n: nat)
    ensures n <= |routes|
  {
    if routes == [] then 0 else (if routes[0].isPage then 1 else 0) + Pages(routes[1..])
  }

  predicate IsDynamic(r: Route) {
    r.routeType == Dynamic || r.routeType == CatchAll || r.routeType == OptionalCatchAll
  }

  function DynamicRoutes(routes: seq<Route>): (n: nat)
    ensures n <= |routes|
  {
    if routes == [] then 0 else (if IsDynamic(routes[0]) then 1 else 0) + DynamicRoutes(routes[1..])
  }

  function ServerActionsCount(apis: seq<ApiRouteRecord>): nat {
    if apis == [] then 0 else |apis[0].serverActions| + ServerActionsCount(apis[1..])
  }

  /** `r.layoutChain ? r.layoutChain.length : 0` */
  function Depth(r: Route): nat {
    if r.layoutChain.Some? then |r.layoutChain.value| else 0
  }

  /** `Math.max(...depths, 0)` */
  function MaxDepth(routes: seq<Route>): nat {
    if routes == [] then 0 else var rest := MaxDepth(routes[1..]); if Depth(routes[0]) > rest then Depth(routes[0]) else rest
  }

  predicate AnyDynamic(routes: seq<Route>) {
    exists i :: 0 <= i < |routes| && IsDynamic(routes[i])
  }

  predicate AnyNested(routes: seq<Route>) {
    exists i :: 0 <= i < |routes| && Depth(routes[i]) > 1
  }

  predicate AnyServerActions(apis: seq<ApiRouteRecord>) {
    exists i :: 0 <= i < |apis| && |apis[i].serverActions| > 0
  }

  /** `generateSummary`: the counters, and each feature flag raised exactly when its counter is positive. */
  function GenerateSummary(c: Collected): (s: Summary)
    ensures s.totalRoutes <= |c.routes| && s.dynamicRoutes <= |c.routes| && s.totalApiRoutes == |c.apiRoutes|
    ensures s.hasRouteGroups == (s.routeGroups > 0) && s.hasParallelRoutes == (s.parallelRoutes > 0)
    ensures s.hasInterceptingRoutes == (s.interceptingRoutes > 0) && s.hasMetadataFiles == (s.totalMetadataFiles > 0)
    ensures s.hasPrivateFolders == (s.totalPrivateFolders > 0) && s.hasColocatedFiles == (s.totalColocatedFiles > 0)
  {
    Summary(
      Pages(c.routes), c.layouts, |c.apiRoutes|, c.specialFiles, c.metadataFiles,
      |c.configFiles|, c.colocatedFiles, c.privateFolders,
      c.routeGroups, c.parallelRoutes, c.interceptingRoutes, DynamicRoutes(c.routes),
      c.apiGroups, ServerActionsCount(c.apiRoutes), MaxDepth(c.routes),
      c.routeGroups > 0, c.parallelRoutes > 0, c.interceptingRoutes > 0,
      AnyDynamic(c.routes), AnyNested(c.routes), c.metadataFiles > 0, AnyServerActions(c.apiRoutes),
      c.privateFolders > 0, c.colocatedFiles > 0, HasMiddleware(c.configFiles))
  }

  /** The deepest chain bounds every chain and is one of them (or 0 when there are no routes). */
  lemma {:induction false} MaxDepthIs(routes: seq<Route>)
    ensures forall i :: 0 <= i < |routes| ==> Depth(routes[i]) <= MaxDepth(routes)
    ensures routes == [] ==> MaxDepth(routes) == 0
    ensures routes != [] ==> exists i :: 0 <= i < |routes| && Depth(routes[i]) == MaxDepth(routes)
    decreases |routes|
  {
    if routes != [] {
      MaxDepthIs(routes[1..]);
      forall i | 1 <= i < |routes| ensures Depth(routes[i]) <= MaxDepth(routes) {
        assert routes[i] == routes[1..][i - 1];
      }
      if routes[1..] != [] && Depth(routes[0]) <= MaxDepth(routes[1..]) {
        var i :| 0 <= i < |routes[1..]| && Depth(routes[1..][i]) == MaxDepth(routes[1..]);
        assert routes[i + 1] == routes[1..][i];
      }
    }
  }

  lemma {:induction false} DynamicCountPositive(routes: seq<Route>)
    ensures DynamicRoutes(routes) > 0 <==> exists i :: 0 <= i < |routes| && IsDynamic(routes[i])
    decreases |routes|
  {
    if routes != [] {
      DynamicCountPositive(routes[1..]);
      if exists i :: 0 <= i < |routes[1..]| && IsDynamic(routes[1..][i]) {
        var i :| 0 <= i < |routes[1..]| && IsDynamic(routes[1..][i]);
        assert routes[i + 1] == routes[1..][i];
      }
      if exists i :: 0 <= i < |routes| && IsDynamic(routes[i]) {
        var i :| 0 <= i < |routes| && IsDynamic(routes[i]);
        if i > 0 {
          assert routes[1..][i - 1] == routes[i];
        }
      }
    }
  }

  lemma {:induction false} ServerActionsPositive(apis: seq<ApiRouteRecord>)
    ensures ServerActionsCount(apis) > 0 <==> exists i :: 0 <= i < |apis| && |apis[i].serverActions| > 0
    decreases |apis|
  {
    if apis != [] {
      ServerActionsPositive(apis[1..]);
      if exists i :: 0 <= i < |apis[1..]| && |apis[1..][i].serverActions| > 0 {
        var i :| 0 <= i < |apis[1..]| && |apis[1..][i].serverActions| > 0;
        assert apis[i + 1] == apis[1..][i];
      }
      if exists i :: 0 <= i < |apis| && |apis[i].serverActions| > 0 {
        var i :| 0 <= i < |apis| && |apis[i].serverActions| > 0;
        if i > 0 {
          assert apis[1..][i - 1] == apis[i];
        }
      }
    }
  }

  /**
    The summary's flags agree with its counters: nested layouts exactly when
    the deepest chain has more than one layout, dynamic routes and server
    actions exactly when their counts are positive; page routes are at most
    all routes.
   */
  lemma SummaryConsistent(c: Collected)
    ensures var s := GenerateSummary(c);
      s.totalRoutes <= |c.routes| && s.dynamicRoutes <= |c.routes|
      && (forall i :: 0 <= i < |c.routes| ==> Depth(c.routes[i]) <= s.maxLayoutDepth)
      && (s.hasNestedLayouts <==> s.maxLayoutDepth > 1)
      && (s.hasDynamicRoutes <==> s.dynamicRoutes > 0)
      && (s.hasServerActions <==> s.serverActionsCount > 0)
  {
    MaxDepthIs(c.routes);
    DynamicCountPositive(c.routes);
    ServerActionsPositive(c.apiRoutes);
  }
}
