# code-visualizer, modelled in Dafny

code-visualizer reads a Next.js project from disk and draws it. This model covers the part that does the work behind the pictures:

- **Project analysis.** It classifies App Router folders and files, derives URL route paths, builds the structure tree and its insights, and runs the App Router parser's passes over the routes.
- **Import analysis and the reverse dependency graph.** It resolves the imports of a file and inverts a forward import graph.
- **Layouts.** It covers the layouts of the project explorer, live and older, with their node ids, collision search, subtree extents and dependency nodes.
- **The Prisma schema graph.** It covers the graph cards and edges, the schema statistics and the schema view's card heights and positions.
- **The page state.** It covers which folders are open, the filtered structure, the page summary counts and the sidebar order.

Each JavaScript file of that core is one module:

| module | file |
|---|---|
| `ProjectAnalyzer`, `PrismaSchema` | `lib/analyzers/project-analyzer.js` |
| `AppRouterParser` | `lib/parser/app-router-parser.js` |
| `DependencyAnalyzer` | `lib/analyzers/dependency-analyzer.js` |
| `ReverseDependencies` | `test.js` |
| `FlowLayout`, `FlowDependencies` | `app/analyze/_components/flow/utills.js` |
| `LegacyCodeFlow`, `LegacyDependencies` | `components/CodeFlow.js` |
| `SchemaGraph`, `SchemaStats` | `app/api/analyze-schema/route.js` |
| `SchemaView` | `app/analyze/hooks/useSchemaView.js` |
| `ExplorerState` | `app/analyze/hooks/useDependencyView.js`, shared with the explorer component |
| `CodeFlowView` | `app/analyze/_components/codeFlow.js` |
| `AnalyzePage` | `app/analyze/page.js` |
| `SideBar` | `app/analyze/_components/ProjectSideBar/sideBar.js` |

Helper modules carry what several files share:

- `Wrappers`: Option and Result.
- `Strings`: splitting, trimming, lexicographic order and a stable sort by key.
- `Paths`: POSIX `path` on strings.
- `Patterns`: the regular expressions, as deterministic matchers.
- `Grouping`: dictionaries filled by `forEach`.
- `FileSystem`: an abstract read-only file system.
- `Geometry`: positions.

The code is modelled in its own form:

- Pure functions and recursion become Dafny functions, with lemmas about them.
- Every loop or `forEach` that builds a result becomes a `method` with a `while` loop or recursion. Each such method is proved equal to the function that specifies it.
- React state updates become functions from the old state to the new one.

Where this model and the behaviour one might assume differ, the model follows the code. Examples:

- A file's base name is the text before its first dot.
- Identical imports are all kept.
- `export * from` records are lost.
- The fallback position of the collision search is not checked.
- Node ids are not injective.
- The intercepting-route branch of the parser can never run.

Each of these is stated as a lemma.

## Model

| member | source | states |
|---|---|---|
| AppRouterParser.ParseInterceptingRoute | lib/parser/app-router-parser.js:471-490 | a name of the shape `(dots)rest` gives `rest` as segment and level 1 for "..", 2 for "...", 0 otherwise; any other name gives itself at level 0 |
| AppRouterParser.InterceptMatch | lib/parser/app-router-parser.js:471-490 | for every dot string and non-empty rest, parsing `(dots)rest` returns exactly that rest and the level its dots stand for |
| AppRouterParser.InterceptShape | lib/parser/app-router-parser.js:471-490 | conversely, a segment other than the name itself only comes from a name of the shape `(dots)rest` |
| AppRouterParser.InterceptingUnreachable | lib/parser/app-router-parser.js:105-156 | every name the intercepting test accepts starts with "(" and ends with ")", so the route-group branch before it always takes it |
| AppRouterParser.ProcessDirectory | lib/parser/app-router-parser.js:104-185 | a folder is a route group exactly when its name starts with "(" and ends with ")", a parallel slot exactly when it is not one and starts with "@"; it is never intercepting; only groups and slots leave a record |
| AppRouterParser.FolderRoutePath | lib/parser/app-router-parser.js:104-185 | route groups and parallel slots keep the parent's route path; dynamic, catch-all, optional catch-all and static folders append their name, the cut-out parameter wrapped back in the same brackets |
| AppRouterParser.RewrapBrackets | lib/parser/app-router-parser.js:159-180 | a bracketed folder name equals its parameter wrapped back in the brackets the branch adds |
| AppRouterParser.FolderRecords | lib/parser/app-router-parser.js:105-131 | the recorded group name is the text between the parentheses and the slot name the text after "@" |
| AppRouterParser.StaticUnderRoot | lib/parser/app-router-parser.js:182-185 | under the empty root path a static folder's route path is its bare name |
| AppRouterParser.InterceptLikeNameIsStatic | lib/parser/app-router-parser.js:137-185 | "(..)photo", whose text does not end with ")", is handled as an ordinary static segment |
| AppRouterParser.NoDotNoExtension | lib/parser/app-router-parser.js:209-210 | a file name without a dot has the empty extension |
| AppRouterParser.ProcessFile | lib/parser/app-router-parser.js:202-313 | a file is skipped exactly when its extension is not accepted; a special file is typed by its base name, one of the special names; only "globals.css" and "global.css" are global styles |
| AppRouterParser.ExtensionAt | lib/parser/app-router-parser.js:209-210 | the extension of a name is the text from its last dot when that dot is not the first character |
| AppRouterParser.MetadataNamesIrrelevant | lib/parser/app-router-parser.js:212-218 | none of the listed metadata names has one of the extensions the file walk accepts |
| AppRouterParser.MetadataByBase | lib/parser/app-router-parser.js:260-270 | a file whose whole name is a listed metadata name is skipped before the metadata test looks at it |
| AppRouterParser.FileRoles | lib/parser/app-router-parser.js:202-313 | which branch a file takes: an accepted extension is needed; special base names win, then metadata names, then `route`, then the global style sheets, then co-located scripts |
| AppRouterParser.ColocatedRole | lib/parser/app-router-parser.js:359-373 | a co-located file is a script that is neither special, nor `route`, nor metadata |
| AppRouterParser.MetadataTypeIsBase | lib/parser/app-router-parser.js:344-357 | a metadata file is typed by its base name, except a base name "favicon.ico", which is typed "metadata" |
| AppRouterParser.OpengraphOnlyIn | lib/parser/app-router-parser.js:347 | of the metadata names only "opengraph-image" contains "opengraph" |
| AppRouterParser.TwitterOnlyIn | lib/parser/app-router-parser.js:348 | of the metadata names only "twitter-image" contains "twitter" |
| AppRouterParser.FaviconIgnored | lib/parser/app-router-parser.js:328-342 | "favicon.ico" is on the metadata list, but its extension is rejected first, so it never reaches the test |
| AppRouterParser.LeafFolderKept | lib/parser/app-router-parser.js:641-651 | a folder without subfolders is kept as a route exactly when it is private or holds a special, metadata or co-located file |
| AppRouterParser.ExportedMethods | lib/parser/app-router-parser.js:541-567 | a method name is listed exactly when the text exports it, in the order of the method list |
| AppRouterParser.ExtractApiMethods | lib/parser/app-router-parser.js:541-573 | the exported methods of a readable file, in the order of the method list; ["GET"] when the file exports none of them and when it cannot be read |
| AppRouterParser.ExtractServerActions | lib/parser/app-router-parser.js:505-531 | nothing for an unreadable file or one without "use server"; otherwise the marker entry comes first, and every match the global `exec` loop reaches in the text is listed after it |
| AppRouterParser.ServerActionsExported | lib/parser/app-router-parser.js:515-525 | every server-action name found occurs in the text as `export async function NAME` (soundness; completeness is ServerActionsComplete) |
| AppRouterParser.ServerActionsComplete | lib/parser/app-router-parser.js:515-525 | every match at a position the `exec` loop reaches is listed at the index returned, and the names after it are exactly those found past the match, so the list keeps text order |
| AppRouterParser.ScanSplit | lib/parser/app-router-parser.js:515-525 | the names found in the text are those found before a reached position followed by those found from it on |
| Patterns.ScanStep | lib/parser/app-router-parser.js:515-525 | one step of the `exec` loop always advances, past the match or by one character, and never beyond the text |
| AppRouterParser.ApiRouteTypeOfFolder | lib/parser/app-router-parser.js:533-539 | an API route below a dynamic folder is typed dynamic, below a catch-all folder catch-all |
| AppRouterParser.DetermineApiRouteType | lib/parser/app-router-parser.js:533-539 | an API route is static exactly when its path lacks "[" or "]", and catch-all only when the path holds "[..." |
| AppRouterParser.JoinKeepsInfix | lib/parser/app-router-parser.js:183-185 | the text of a folder name without backslashes is kept in the joined route path |
| AppRouterParser.Up | lib/parser/app-router-parser.js:680-690 | one step up a path other than the root gives a shorter path (`path.dirname`, with "." read as the root) |
| AppRouterParser.Visited | lib/parser/app-router-parser.js:675-692 | the paths the inheritance walk visits, root first, ending with the route's own path |
| AppRouterParser.VisitedIncreasing | lib/parser/app-router-parser.js:675-692 | each visited path is strictly shorter than every later one |
| AppRouterParser.VisitedBelow | lib/parser/app-router-parser.js:675-692 | no visited path is longer than the route's path |
| AppRouterParser.LayoutIndex | lib/parser/app-router-parser.js:668-672 | every entry of the layout map is one of the layouts and sits under its own path, and every layout's path has an entry |
| AppRouterParser.ChainOf | lib/parser/app-router-parser.js:675-692 | the layouts found at the visited paths, in the order of the paths |
| AppRouterParser.ChainIncreasing | lib/parser/app-router-parser.js:675-692 | over paths of increasing length, each chain entry is an indexed layout at one of them and the entries' paths grow strictly |
| AppRouterParser.LayoutChainRootFirst | lib/parser/app-router-parser.js:667-695 | a layout chain lists only layouts at the route's path or an ancestor, root first |
| AppRouterParser.ChainStep | lib/parser/app-router-parser.js:675-692 | the chain of a path is the chain of its parent followed by the layout at the path |
| AppRouterParser.LayoutChainOf | lib/parser/app-router-parser.js:675-692 | the `while` walk up one route's path returns the chain of that path |
| AppRouterParser.BuildLayoutInheritance | lib/parser/app-router-parser.js:667-695 | every route, in order, gets the layout chain of its path from the layout index |
| AppRouterParser.IndexLayouts | lib/parser/app-router-parser.js:668-672 | the `forEach` over the layouts builds exactly the layout index |
| AppRouterParser.MapParallelRoutes | lib/parser/app-router-parser.js:697-714 | the routes in order, each with the slots whose parent path is its path |
| AppRouterParser.SlotLookup | lib/parser/app-router-parser.js:709-713 | looking a route's path up in the grouped slots gives exactly the slots whose parent is that path, and leaves a route without any unchanged |
| AppRouterParser.SlotsBelongToRoute | lib/parser/app-router-parser.js:697-714 | after the mapping a route lists exactly the slots whose parent is its path, in their order |
| AppRouterParser.FindTarget | lib/parser/app-router-parser.js:719-721 | the first route whose path ends with the segment, or none when no route does |
| AppRouterParser.ConnectInterceptingRoutes | lib/parser/app-router-parser.js:716-731 | each intercepting record gets the first route whose path ends with its segment, and each route lists the records that target it |
| AppRouterParser.GroupKey | lib/parser/app-router-parser.js:735-741 | the group key of an API route is a non-empty text without "/" (its first non-empty segment, or "root") |
| AppRouterParser.GroupApiRoutes | lib/parser/app-router-parser.js:733-749 | the keys in order of first appearance, each mapped to the routes with that key |
| AppRouterParser.ApiGroupsPartition | lib/parser/app-router-parser.js:733-749 | every API route is in the group of its key and in no other, and the group sizes add up to the number of routes |
| AppRouterParser.ParseRootConfigFiles | lib/parser/app-router-parser.js:416-461 | the two loops push the existing configuration candidates with their types, then the existing environment files, each in list order |
| AppRouterParser.RootConfigNext | lib/parser/app-router-parser.js:437-448 | one candidate at a time: an existing candidate is pushed first, then the rest follow |
| AppRouterParser.MiddlewareFrom | lib/parser/app-router-parser.js:416-469 | environment files never count as middleware; a configuration file does when it exists and is typed "middleware" |
| AppRouterParser.GetConfigFileType | lib/parser/app-router-parser.js:463-469 | a name holding "next.config" is typed "next-config"; "middleware" only for a name holding it and neither framework prefix; "config" exactly for a name holding none of the four words |
| AppRouterParser.MiddlewareType | lib/parser/app-router-parser.js:463-469 | a middleware file name is typed "middleware" |
| AppRouterParser.InstrumentationType | lib/parser/app-router-parser.js:463-469 | an instrumentation file name is not typed "middleware" |
| AppRouterParser.PrefixedInstrumentation | lib/parser/app-router-parser.js:463-469 | a name starting with "instrumentation" and holding neither "x" nor "w" is typed "instrumentation" |
| AppRouterParser.FrameworkConfigType | lib/parser/app-router-parser.js:463-469 | the Next.js and Tailwind configuration names are typed by their prefix |
| AppRouterParser.OtherConfigTypes | lib/parser/app-router-parser.js:417-469 | no configuration candidate but the two middleware names is typed "middleware" |
| AppRouterParser.MiddlewareAmongConfig | lib/parser/app-router-parser.js:417-469 | an existing configuration candidate is typed "middleware" exactly when `middleware.ts` or `middleware.js` exists |
| AppRouterParser.MiddlewareDetected | lib/parser/app-router-parser.js:796 | the summary's middleware flag is set exactly when a middleware file exists at the project root |
| AppRouterParser.Pages | lib/parser/app-router-parser.js:753 | the page count is at most the route count |
| AppRouterParser.DynamicRoutes | lib/parser/app-router-parser.js:769-774 | the dynamic route count is at most the route count |
| AppRouterParser.MaxDepthIs | lib/parser/app-router-parser.js:783-786 | the deepest chain bounds every route's chain and is one of them, or 0 without routes |
| AppRouterParser.DynamicCountPositive | lib/parser/app-router-parser.js:769-793 | the dynamic route count is positive exactly when some route is dynamic, catch-all or optional catch-all |
| AppRouterParser.ServerActionsPositive | lib/parser/app-router-parser.js:778-797 | the server-action count is positive exactly when some API route has a server action |
| AppRouterParser.SummaryConsistent | lib/parser/app-router-parser.js:751-806 | the summary's flags agree with its counters: nested layouts exactly when the deepest chain is longer than one, dynamic routes and server actions exactly when their counts are positive, pages at most all routes |
| AppRouterParser.GenerateSummary | lib/parser/app-router-parser.js:751-806 | pages and dynamic routes are at most all routes, the API route count is the number of API routes, and the group, slot, intercepting, metadata, private-folder and co-located flags are raised exactly when their counters are positive |
| ProjectAnalyzer.InterceptDots | lib/analyzers/project-analyzer.js:496-499 | the captured text is a non-empty run of dots that the name opens with, inside parentheses |
| ProjectAnalyzer.AnalyzeRoutingPattern | lib/analyzers/project-analyzer.js:420-530 | the first matching rule decides; every kind but a route group keeps the folder name as its display name |
| ProjectAnalyzer.RouteGroupExactly | lib/analyzers/project-analyzer.js:421-431 | a name is a route group exactly when it starts with "(" and ends with ")", and its display name is the text inside |
| ProjectAnalyzer.OptionalCatchAllShape | lib/analyzers/project-analyzer.js:444-458 | "[[...x]]" is an optional catch-all with parameter x |
| ProjectAnalyzer.CatchAllShape | lib/analyzers/project-analyzer.js:444-470 | "[...x]" is a catch-all with parameter x |
| ProjectAnalyzer.DynamicShape | lib/analyzers/project-analyzer.js:444-482 | any other bracketed name is a dynamic segment whose parameter is the text inside the brackets |
| ProjectAnalyzer.InterceptingShape | lib/analyzers/project-analyzer.js:495-521 | a name that opens with dots in parentheses and does not end with ")" intercepts, one level up for "..", from the root for "...", at the same level otherwise |
| ProjectAnalyzer.TwoLevelsUpUnreachable | lib/analyzers/project-analyzer.js:504-506 | the "two-levels-up" level is never produced, because the captured dots never equal "../.." |
| ProjectAnalyzer.BuildRoutePath | lib/analyzers/project-analyzer.js:715-744 | no analysis keeps the parent path; the result extends the parent path, except the top-level "app" folder which gives ""; a static folder appends "/name" |
| ProjectAnalyzer.RoutePathUnchangedIff | lib/analyzers/project-analyzer.js:715-744 | the URL path stays the parent's exactly for route groups, private folders, parallel slots, intercepting folders and the top-level "app" folder |
| ProjectAnalyzer.ReservedName | lib/analyzers/project-analyzer.js:546-596 | the reserved base names; only "route" names an API route file |
| ProjectAnalyzer.FilterMethods | lib/analyzers/project-analyzer.js:38-42 | a method is kept exactly when it is listed and the text exports it as a function; a distinct list gives a distinct result |
| ProjectAnalyzer.ExtractAPIMethodsFromFile | lib/analyzers/project-analyzer.js:8-49 | a method is returned exactly when the file exists and exports it as a function, any letter case; the result is sorted and free of repetitions |
| ProjectAnalyzer.SortedNames | lib/analyzers/project-analyzer.js:44 | sorting distinct names keeps exactly those names, distinct and in order |
| ProjectAnalyzer.AnalyzeAppRouterFile | lib/analyzers/project-analyzer.js:535-620 | a non-script file is a regular file; a script whose text before the first dot is reserved is special with that kind, and exactly the `route` files carry their HTTP methods; a script whose base name is only a property every object inherits ("constructor", "toString", "__proto__" and the like) is special without a type; any other script is a component file |
| ProjectAnalyzer.InheritedNameUntyped | lib/analyzers/project-analyzer.js:597-600 | "constructor.js" is special without a type, so it raises no flag and adds to no file count |
| ProjectAnalyzer.DetectSpecialFiles | lib/analyzers/project-analyzer.js:749-795 | the `forEach` over the children computes the flags of the children |
| ProjectAnalyzer.Marked | lib/analyzers/project-analyzer.js:761-792 | one child raises exactly the flag of its kind when it is a special file, and nothing otherwise |
| ProjectAnalyzer.FlagsIgnoreOthers | lib/analyzers/project-analyzer.js:761-792 | folders, non-special files and global-error files never raise a flag |
| ProjectAnalyzer.Present | lib/analyzers/project-analyzer.js:662-677 | the children that are not ignored, and only those |
| ProjectAnalyzer.BuildDirectoryTree | lib/analyzers/project-analyzer.js:650-710 | an entry that is not the root and whose relative path is ignored gives nothing; otherwise a node with the entry's name, a folder exactly for a directory, in App Router scope exactly when its relative path is |
| ProjectAnalyzer.BuildScopeConsistent | lib/analyzers/project-analyzer.js:650-710 | in a built tree every node below an App Router folder is in scope too |
| ProjectAnalyzer.AppScope | lib/analyzers/project-analyzer.js:625-628 | a relative path is in App Router scope exactly when its first segment is "app" |
| ProjectAnalyzer.AnalyzeProject | lib/analyzers/project-analyzer.js:800-837 | success exactly for a directory, with the error message otherwise; the structure is a folder outside the App Router scope and the insights are those of the structure |
| ProjectAnalyzer.RouteCountIs | lib/analyzers/project-analyzer.js:868-910 | the route count is the number of in-scope folders with a routing analysis and a page |
| ProjectAnalyzer.ApiCountIs | lib/analyzers/project-analyzer.js:868-910 | the API endpoint count is the number of in-scope folders with a routing analysis and an API route file |
| ProjectAnalyzer.DetectedIff | lib/analyzers/project-analyzer.js:869-871 | the App Router is detected exactly when some node of the tree is in scope |
| ProjectAnalyzer.Traverse | lib/analyzers/project-analyzer.js:868-944 | the recursive walk adds the insights of the subtree to the running counters |
| ProjectAnalyzer.TraverseEach | lib/analyzers/project-analyzer.js:941-943 | the `forEach` over the children adds the insights of all of them |
| ProjectAnalyzer.AnalyzeProjectInsights | lib/analyzers/project-analyzer.js:842-948 | the counters after the whole walk: routes with a page, API route folders, and detection exactly when some node is in scope |
| FileSystem.RelativeBelow | lib/analyzers/project-analyzer.js:651-653 | the relative path from an ancestor is the rest of the path |
| DependencyAnalyzer.Prefix | lib/analyzers/dependency-analyzer.js:13 | `substring(0, n)` is a prefix of the text, n characters long or the whole text when it is shorter |
| DependencyAnalyzer.OrElse | lib/analyzers/dependency-analyzer.js:302 | `a \|\| b` on optional paths: the first when it is present and non-empty, otherwise the second |
| DependencyAnalyzer.DependencyId | lib/analyzers/dependency-analyzer.js:11-14 | the identifier is at most 12 characters: the start of the digest of `source-type-file` |
| DependencyAnalyzer.RecordsOf | lib/analyzers/dependency-analyzer.js:128-227 | one visited node adds at most one record: one for an import and for an `export *`, one for an `export ... from` with a source, one for an `import("x")` or `require("x")` call with a string literal, none otherwise; each record has its node's type, the specifier as its source (none for `export *`), the node's drawn id, and an identifier that hashes the specifier text with that type |
| DependencyAnalyzer.Dependencies | lib/analyzers/dependency-analyzer.js:122-236 | the traversal yields at most one record per statement |
| DependencyAnalyzer.TraverseLength | lib/analyzers/dependency-analyzer.js:122-236 | a visit adding at most one record per node yields at most as many records as nodes |
| DependencyAnalyzer.CollectDependencies | lib/analyzers/dependency-analyzer.js:122-236 | the traversal's pushes produce exactly the record list of the statements |
| DependencyAnalyzer.TraverseAppend | lib/analyzers/dependency-analyzer.js:122-236 | the records of two consecutive statement lists follow one another |
| DependencyAnalyzer.DuplicateImportsKept | lib/analyzers/dependency-analyzer.js:122-144 | two identical import declarations give two records with the same identifier, and both are kept |
| DependencyAnalyzer.ExportAllLosesSource | lib/analyzers/dependency-analyzer.js:214-227 | an `export * from` record has no source and the type "export-all-from", though its identifier hashes the specifier text |
| DependencyAnalyzer.SourcesKept | lib/analyzers/dependency-analyzer.js:128-211 | every other record keeps the specifier text as its source |
| DependencyAnalyzer.FirstWhere | lib/analyzers/dependency-analyzer.js:388-401 | the index of the first candidate that passes the test, or none when no candidate does |
| DependencyAnalyzer.ExtCandidates | lib/analyzers/dependency-analyzer.js:375-392 | one candidate per extension, the bare base path first |
| DependencyAnalyzer.IndexCandidates | lib/analyzers/dependency-analyzer.js:384-400 | one candidate per index file name |
| DependencyAnalyzer.FindFile | lib/analyzers/dependency-analyzer.js:374-406 | whatever is found exists |
| DependencyAnalyzer.FindFileOrder | lib/analyzers/dependency-analyzer.js:374-406 | the first extension candidate that is a regular file wins; nothing is found exactly when no extension candidate is a file and, for a directory, no index file exists |
| DependencyAnalyzer.FindActualFile | lib/analyzers/dependency-analyzer.js:374-406 | the two loops with early returns compute the search |
| DependencyAnalyzer.UnscopedPackageName | lib/analyzers/dependency-analyzer.js:411-420 | an unscoped package name is the specifier up to its first "/" |
| DependencyAnalyzer.ScopedPackageName | lib/analyzers/dependency-analyzer.js:411-420 | a scoped package name is a prefix of the specifier with at most one "/", ending where the specifier's second "/" is |
| DependencyAnalyzer.PackageNameDeepScope | lib/analyzers/dependency-analyzer.js:413-416 | "@a/b/c" names the package "@a/b" |
| DependencyAnalyzer.PackageNameBareScope | lib/analyzers/dependency-analyzer.js:413-416 | "@a" names the package "@a" |
| DependencyAnalyzer.PackageNameDeepPath | lib/analyzers/dependency-analyzer.js:419 | "a/b/c" names the package "a" |
| DependencyAnalyzer.LocalAt | lib/analyzers/dependency-analyzer.js:297-356 | a local resolution exists exactly when a file is found, and then names an existing path |
| DependencyAnalyzer.ResolutionCases | lib/analyzers/dependency-analyzer.js:295-369 | relative specifiers resolve from the file's folder, "@/" ones from the project root as aliases, others are local exactly when the project path or a file for it exists and external otherwise, with their package name |
| DependencyAnalyzer.ResolveDependencyPath | lib/analyzers/dependency-analyzer.js:295-369 | relative and "@/" specifiers always resolve locally, only the "@/" ones as aliases; an external resolution keeps the specifier as its path and names its package |
| DependencyAnalyzer.ResolvedExists | lib/analyzers/dependency-analyzer.js:295-369 | a local resolution marked as existing names a path that exists |
| DependencyAnalyzer.DirectoryWithoutIndex | lib/analyzers/dependency-analyzer.js:334-356 | an existing directory without an index or same-named file is local yet marked missing |
| DependencyAnalyzer.OutcomeOf | lib/analyzers/dependency-analyzer.js:246-272 | a record fails to resolve exactly when it has no source; a resolved one keeps its name, identifier and node id |
| DependencyAnalyzer.Outcomes | lib/analyzers/dependency-analyzer.js:246-272 | one outcome per record, in order |
| DependencyAnalyzer.OutcomeSides | lib/analyzers/dependency-analyzer.js:246-272 | a record is among the locals, the externals or the messages exactly when its outcome is a local, an external or a failure |
| DependencyAnalyzer.OutcomesPartition | lib/analyzers/dependency-analyzer.js:246-272 | the locals and externals together are the resolved records, and resolved plus failed is every record |
| DependencyAnalyzer.PartitionOutcomes | lib/analyzers/dependency-analyzer.js:246-272 | the `forEach` pushes each outcome to its side |
| DependencyAnalyzer.CategorizeDependencies | lib/analyzers/dependency-analyzer.js:241-290 | the method computes the categorised analysis of the records |
| DependencyAnalyzer.PushOutcome | lib/analyzers/dependency-analyzer.js:265-271 | one step pushes a failure to the messages and a resolved record to its side, and nothing else |
| DependencyAnalyzer.CategorizedPartition | lib/analyzers/dependency-analyzer.js:241-290 | the two sides are a permutation of the resolved records, each sorted by name and holding only its kind; the count is the records kept, and count plus messages is every record |
| DependencyAnalyzer.FailuresAreSourceless | lib/analyzers/dependency-analyzer.js:270-272 | a record fails exactly when it has no source, and then leaves the "Failed to resolve undefined" message |
| DependencyAnalyzer.FailedAnalysis | lib/analyzers/dependency-analyzer.js:59-71 | the failure record has no dependencies, a zero count and the one message |
| DependencyAnalyzer.ExtractDependencies | lib/analyzers/dependency-analyzer.js:122-236 | the traversal's records, categorised |
| DependencyAnalyzer.AnalyzeDependencies | lib/analyzers/dependency-analyzer.js:27-72 | the analysis of the file, and the "File not found" failure for a missing file |
| DependencyAnalyzer.AnalysisShapes | lib/analyzers/dependency-analyzer.js:27-117 | the count is always the records kept; an unreadable, unsupported or unparsable file gives no records and exactly one message |
| DependencyAnalyzer.CreateDependencyNodes | lib/analyzers/dependency-analyzer.js:425-502 | one node on the grid and one edge from the parent per dependency, locals first, each edge ending at its node |
| DependencyAnalyzer.GridCellsDistinct | lib/analyzers/dependency-analyzer.js:436-445 | no two dependencies share a grid cell |
| DependencyAnalyzer.DependencyById | lib/analyzers/dependency-analyzer.js:507-511 | a found dependency is in the list and has the identifier; nothing is found exactly when none has it |
| DependencyAnalyzer.DependencyByIdFirst | lib/analyzers/dependency-analyzer.js:507-511 | the dependency found is the first one carrying the identifier |
| DependencyAnalyzer.GetDependencyById | lib/analyzers/dependency-analyzer.js:507-511 | a dependency found is a local or external one with the identifier; nothing is found exactly when neither side has it |
| DependencyAnalyzer.OfType | lib/analyzers/dependency-analyzer.js:516-520 | exactly the dependencies of the type, in their order |
| DependencyAnalyzer.FilterDependenciesByType | lib/analyzers/dependency-analyzer.js:516-520 | exactly the local and external dependencies of the type |
| Paths.LastIndexOf | lib/parser/app-router-parser.js:209-210 | the index of the last occurrence of the character, or -1 exactly when it does not occur |
| Paths.Extname | lib/analyzers/project-analyzer.js:537 | the extension is empty or starts with "." and ends the name without being all of it |
| Paths.ParseName | lib/parser/app-router-parser.js:209 | the base name followed by the extension is the whole name |
| Paths.BeforeFirstDot | lib/analyzers/project-analyzer.js:536 | the text before the first dot: a prefix of the name without a dot, followed by a dot when it is not the whole name |
| Paths.DirnameShrinks | lib/parser/app-router-parser.js:685-689 | every path other than "" and "/" has a strictly shorter parent, "." read as "" |
| Paths.JoinSegment | lib/parser/app-router-parser.js:183 | the joined path has no backslash, and is the segment alone under "" or the directory, "/" and the segment otherwise |
| Patterns.SearchAt | lib/parser/app-router-parser.js:560-563 | a regular-expression test succeeds exactly when the pattern matches at some position of the text |
| Patterns.ServerActionAt | lib/parser/app-router-parser.js:516 | a match of `export\s+async\s+function\s+(\w+)` has a non-empty name and a length within the text |
| Grouping.Keys | lib/parser/app-router-parser.js:737-743 | the distinct keys of the records, each occurring in some record |
| Grouping.Group | lib/parser/app-router-parser.js:745 | the records with the key, each carrying it |
| Grouping.GroupAbsent | lib/parser/app-router-parser.js:737-746 | a key no record has has an empty group |
| Grouping.GroupMember | lib/parser/app-router-parser.js:737-746 | every record is in the group of its own key |
| Grouping.GroupsPartition | lib/parser/app-router-parser.js:737-746 | the group sizes add up to the number of records |
| Grouping.Collect | lib/parser/app-router-parser.js:701-707 | the dictionary-filling `forEach`: the keys in order of first appearance, each mapped to its group |
| PrismaSchema.Header | lib/analyzers/project-analyzer.js:139-172 | a block header `kw name {` matches only a line starting with the keyword, and the name is a non-empty run of word characters |
| PrismaSchema.ProviderWordAt | lib/analyzers/project-analyzer.js:185-190 | a datasource provider match captures a non-empty word |
| PrismaSchema.LeadingUnquoted | lib/analyzers/project-analyzer.js:194 | the longest prefix without a quote: no quote inside it and a quote right after it |
| PrismaSchema.ProviderQuotedAt | lib/analyzers/project-analyzer.js:193-198 | a generator provider match captures a non-empty text |
| PrismaSchema.FirstMatchFound | lib/analyzers/project-analyzer.js:186 | the leftmost match of an unanchored pattern is a match at some position of the line |
| PrismaSchema.FieldMatch | lib/analyzers/project-analyzer.js:228-230 | a field line gives a non-empty name that the line starts with, and a non-empty type |
| PrismaSchema.Bump | lib/analyzers/project-analyzer.js:249-252 | counting a field type raises its entry by one, adding it at 1, and leaves the other entries alone |
| PrismaSchema.Deepen | lib/analyzers/project-analyzer.js:133-136 | adding the line's braces to the depth keeps the scan's counters consistent |
| PrismaSchema.CountSelf | lib/analyzers/project-analyzer.js:278-280 | the self relations are at most the relation fields |
| PrismaSchema.FieldStepConsistent | lib/analyzers/project-analyzer.js:228-283 | a field line keeps the counters consistent: total fields are required plus optional, relations are the stored relation fields, self relations are counted among them |
| PrismaSchema.BodyStepConsistent | lib/analyzers/project-analyzer.js:201-284 | a line inside a model keeps the counters consistent |
| PrismaSchema.HeaderStepConsistent | lib/analyzers/project-analyzer.js:139-183 | a block header keeps the counters consistent, models and enums counted with their names |
| PrismaSchema.StepConsistent | lib/analyzers/project-analyzer.js:120-290 | one step of the line loop keeps the counters consistent |
| PrismaSchema.RunConsistent | lib/analyzers/project-analyzer.js:115-290 | the whole line loop keeps the counters consistent |
| PrismaSchema.CommentLinesIgnored | lib/analyzers/project-analyzer.js:120-131 | comment and blank lines leave the scan as it was |
| PrismaSchema.PairKeySymmetric | lib/analyzers/project-analyzer.js:324-330 | the pair key of a relation does not depend on which side declares it |
| PrismaSchema.Classified | lib/analyzers/project-analyzer.js:333-358 | the number of groups with one or two sides is at most the number of groups |
| PrismaSchema.TallyCounts | lib/analyzers/project-analyzer.js:333-358 | exactly the groups with one or two sides are classified, once each; the total and the self relations are untouched |
| PrismaSchema.AnalyzeRelationshipTypes | lib/analyzers/project-analyzer.js:320-360 | the relation fields grouped by model pair, then each group classified into the counters |
| PrismaSchema.TallyGroups | lib/analyzers/project-analyzer.js:333-358 | the second loop, over the groups in key order, computes the classification |
| PrismaSchema.IndexAt | lib/analyzers/project-analyzer.js:295 | a match of `@@index\(\[([^\]]+)\]` is exactly "@@index([" + the captured list + "]" |
| PrismaSchema.IndexMatchWords | lib/analyzers/project-analyzer.js:297-301 | the match has exactly one word run more than the field list, the "index" keyword that the `- 1` removes |
| PrismaSchema.AnalysisOf | lib/analyzers/project-analyzer.js:54-305 | a readable schema text always yields an analysis |
| PrismaSchema.Assemble | lib/analyzers/project-analyzer.js:292-305 | the analysis carries the tallied relationships and the scanned model names |
| PrismaSchema.AnalysisCounts | lib/analyzers/project-analyzer.js:115-305 | in every analysis the counters agree: models and enums are their name lists, fields are required plus optional, self relations and classified relations are at most all relations |
| PrismaSchema.ScanLines | lib/analyzers/project-analyzer.js:120-290 | the `for` loop over the lines computes the scan of the lines |
| PrismaSchema.AnalyzePrismaSchema | lib/analyzers/project-analyzer.js:54-316 | nothing for a missing file and the failure record for an unreadable one; otherwise the analysis of its text, whose counters agree |
| PrismaSchema.AnalyzeContent | lib/analyzers/project-analyzer.js:58-305 | the analysis of a text that was read, whose counters agree |
| PrismaSchema.AssembleAnalysis | lib/analyzers/project-analyzer.js:115-305 | the line scan, the relationship tally and the index count together give the analysis of the text |
| FlowLayout.CollapseDashes | app/analyze/_components/flow/utills.js:536-538 | collapsing runs of dashes never lengthens the id and keeps its first character |
| FlowLayout.CollapseChars | app/analyze/_components/flow/utills.js:536-538 | collapsing dashes only keeps characters that were already there |
| FlowLayout.CollapseNoDoubleDash | app/analyze/_components/flow/utills.js:536-538 | after collapsing, no two dashes are adjacent |
| FlowLayout.CollapseFixed | app/analyze/_components/flow/utills.js:536-538 | a string without adjacent dashes is left as it is |
| FlowLayout.CreateNodeIdShape | app/analyze/_components/flow/utills.js:536-538 | a node id holds only letters, digits and dashes, and never two dashes in a row |
| FlowLayout.CreateNodeIdFixed | app/analyze/_components/flow/utills.js:536-538 | a path is its own id exactly when it already holds only id characters and no double dash |
| FlowLayout.CreateNodeIdIdempotent | app/analyze/_components/flow/utills.js:536-538 | making an id out of an id changes nothing |
| FlowLayout.CreateNodeIdNotInjective | app/analyze/_components/flow/utills.js:536-538 | distinct paths can share an id: "a.b" and "a/b" both give "a-b" |
| FlowLayout.CreateDataEdge | app/analyze/_components/flow/utills.js:679-725 | the edge joins the given source and target under the id "edge-source-target"; only external dependency edges are dashed |
| FlowLayout.CollisionSome | app/analyze/_components/flow/utills.js:540-573 | a proposed box collides exactly when its padded box meets the padded box of some existing node |
| FlowLayout.IntersectIffCommonPoint | app/analyze/_components/flow/utills.js:540-573 | the overlap test on two boxes of non-negative size holds exactly when they share a point |
| FlowLayout.IntersectSymmetric | app/analyze/_components/flow/utills.js:540-573 | the overlap test does not depend on the order of the two boxes |
| FlowLayout.CollisionMeaning | app/analyze/_components/flow/utills.js:540-573 | a collision means that some existing node's padded box and the proposed padded box share a point |
| FlowLayout.SearchFromCases | app/analyze/_components/flow/utills.js:575-619 | a search resumed at attempt k after k collisions returns the first free probe, or the fallback when all 20 probes collide |
| FlowLayout.CompactPositionCases | app/analyze/_components/flow/utills.js:575-619 | the chosen position is the first of the 20 probes that is free, or the unchecked fallback when every probe collides |
| FlowLayout.CompactPositionEmpty | app/analyze/_components/flow/utills.js:575-619 | with no existing nodes the initial position is kept |
| FlowLayout.FindCompactPosition | app/analyze/_components/flow/utills.js:575-619 | the loop over the attempts returns the position the search specifies |
| FlowLayout.ProbeBounds | app/analyze/_components/flow/utills.js:600-610 | after k attempts the probe has moved at most k horizontal steps sideways and at most k vertical steps down, never up |
| FlowLayout.WallBlocks | app/analyze/_components/flow/utills.js:575-619 | a node that covers the whole probe range blocks every probe |
| FlowLayout.FallbackUnchecked | app/analyze/_components/flow/utills.js:612-618 | when every probe collides the fallback is returned even though it collides too |
| FlowLayout.Folders | app/analyze/_components/flow/utills.js:752-754 | the child folders are at most the children |
| FlowLayout.FolderIn | app/analyze/_components/flow/utills.js:752-754 | every selected child folder is a folder among the children |
| FlowLayout.FolderAt | app/analyze/_components/flow/utills.js:752-754 | every folder among the children is one of the selected child folders |
| FlowLayout.Files | app/analyze/_components/flow/utills.js:755-757 | the child files are at most the children |
| FlowLayout.TreeDimensions | app/analyze/_components/flow/utills.js:621-665 | every subtree is at least as large as one folder card |
| FlowLayout.CalculateTreeDimensions | app/analyze/_components/flow/utills.js:621-665 | the recursive loop over the child folders computes the specified dimensions |
| FlowLayout.FolderExtentCovers | app/analyze/_components/flow/utills.js:644-665 | the running extent over the child folders is as wide as each child subtree and taller than it by the folder spacing |
| FlowLayout.ExpandedDimensions | app/analyze/_components/flow/utills.js:621-665 | an expanded folder is at least the minimum tree height, wider than its card by the padding, and larger than each child subtree |
| FlowLayout.ProcessNode | app/analyze/_components/flow/utills.js:740-906 | placing a node appends exactly the nodes and edges the layout specifies for it, its file nodes carrying the project path handed down from the root |
| FlowLayout.ProcessChildren | app/analyze/_components/flow/utills.js:810-905 | placing an expanded folder's children appends what the layout specifies, with the same project path |
| FlowLayout.TotalChildHeight | app/analyze/_components/flow/utills.js:813-827 | the children's total height is the specified sum over folder subtrees and file rows |
| FlowLayout.ProcessChildFolders | app/analyze/_components/flow/utills.js:830-851 | the loop over the child folders appends the specified subtrees, with the same project path, and advances the cursor as specified |
| FlowLayout.ProcessFiles | app/analyze/_components/flow/utills.js:853-904 | the loop over the child files appends the specified file nodes, each carrying its path and the project path, and their edges, and advances the cursor as specified |
| FlowLayout.BuildTreeLayout | app/analyze/_components/flow/utills.js:731-920 | the layout of the whole tree is the specified one, starting from the root path "root", and every file node carries the project path stored on the root ("" when there is none) |
| FlowLayout.PushExtends | app/analyze/_components/flow/utills.js:771-806 | pushing a node with at most one edge, pointing at it, extends the output |
| FlowLayout.LayoutNodeExtends | app/analyze/_components/flow/utills.js:740-906 | placing a node keeps the earlier output and adds one more node than edges only for a parentless folder, every new edge pointing at a new node |
| FlowLayout.ChildrenLayoutExtends | app/analyze/_components/flow/utills.js:810-905 | placing children adds as many nodes as edges, each edge pointing at an added node |
| FlowLayout.LayoutFoldersExtends | app/analyze/_components/flow/utills.js:830-851 | the child-folder loop extends its starting output |
| FlowLayout.FoldersExtendStep | app/analyze/_components/flow/utills.js:830-851 | one more child folder keeps the output an extension |
| FlowLayout.LayoutFilesExtends | app/analyze/_components/flow/utills.js:853-904 | the file loop extends its starting output |
| FlowLayout.FilesExtendStep | app/analyze/_components/flow/utills.js:853-904 | one more file keeps the output an extension |
| FlowLayout.TreeLayoutIsTree | app/analyze/_components/flow/utills.js:731-920 | the layout of a folder is a tree: one node more than edges, edge `k` points at node `k + 1` and starts at a node placed no later than node `k`; when the ids are distinct, each node but the root is the target of exactly that one edge; a file root places nothing |
| FlowLayout.KeepsId | app/analyze/_components/flow/utills.js:793-803 | a node pushed stays in the array, so its id stays available as an edge source |
| FlowLayout.PushPaired | app/analyze/_components/flow/utills.js:793-803 | pushing a node together with the edge from a node already placed keeps the tree shape |
| FlowLayout.LayoutNodePaired | app/analyze/_components/flow/utills.js:740-806 | laying out a folder under a placed parent keeps the tree shape |
| FlowLayout.ChildrenLayoutPaired | app/analyze/_components/flow/utills.js:809-903 | laying out the children of a placed folder keeps the tree shape |
| FlowLayout.LayoutFoldersPaired | app/analyze/_components/flow/utills.js:831-851 | laying out the child folders one by one keeps the tree shape and the parent's node |
| FlowLayout.ChildPairedUnder | app/analyze/_components/flow/utills.js:841-849 | a child folder laid out under a placed folder keeps the tree shape and the folder's node |
| FlowLayout.LayoutFilesPaired | app/analyze/_components/flow/utills.js:854-903 | pushing the file cards, each with its edge from the folder, keeps the tree shape and the folder's node |
| FlowLayout.TreeLayoutPaired | app/analyze/_components/flow/utills.js:731-920 | the layout of a folder root is a tree in push order |
| FlowLayout.PairedJoins | app/analyze/_components/flow/utills.js:793-803 | in a tree in push order, edge `k` points at node `k + 1` from a node placed no later than node `k` |
| FlowLayout.PairedTargets | app/analyze/_components/flow/utills.js:793-803 | in a tree in push order with distinct ids, an edge points at a node exactly when it was pushed with it |
| FlowLayout.TreeLayoutFilesCarryRoot | app/analyze/_components/flow/utills.js:876-908 | every file node of the layout carries the project path the layout was given |
| FlowDependencies.LayoutDependenciesShape | app/analyze/_components/flow/utills.js:952-1004 | after the first i dependencies, node k and edge k belong to dependency k, with its id, data, parent edge and edge style, at the position the placer gave in slot k |
| FlowDependencies.ShapeStep | app/analyze/_components/flow/utills.js:952-1004 | placing one more dependency keeps that shape for one more entry |
| FlowDependencies.DependencyNodesUnfold | app/analyze/_components/flow/utills.js:926-1007 | with at least one dependency the result is the slot-by-slot layout starting above the parent's centre |
| FlowDependencies.LayoutIds | app/analyze/_components/flow/utills.js:952-1004 | the full slot-by-slot layout gives each dependency its node (id "parent-dep-key", its data) and one edge from the parent, dashed exactly for an external one |
| FlowDependencies.DependencyNodesShape | app/analyze/_components/flow/utills.js:926-1007 | local dependencies first, then external ones, each with exactly one node and one edge from the parent file; no dependencies give nothing |
| FlowDependencies.LayoutPositions | app/analyze/_components/flow/utills.js:945-963 | each dependency node sits where the placer put its proposal in its own 100-high slot, 450 to the right of the parent, against the existing nodes and those placed before it |
| FlowDependencies.DependencyNodesPositions | app/analyze/_components/flow/utills.js:945-963 | the positions of the result are the placer's answers for the successive slots |
| FlowDependencies.DependencyNodesStack | app/analyze/_components/flow/utills.js:945-1003 | with nothing in the way the dependency nodes stack 100 apart, centred on the parent's y, 450 to its right |
| FlowDependencies.CreateDependencyNodes | app/analyze/_components/flow/utills.js:926-1007 | the loop builds exactly the specified nodes and edges, with findCompactPosition as the placer |
| FlowDependencies.PlaceDependencies | app/analyze/_components/flow/utills.js:952-1004 | the forEach over the dependencies appends the specified nodes and edges and advances the slot cursor |
| FlowDependencies.FindNode | app/analyze/_components/flow/utills.js:1014 | finds a node with the id when there is one, and none exactly when no node has that id |
| FlowDependencies.MergeFromShape | app/analyze/_components/flow/utills.js:1009-1029 | for any creator giving one node and one edge per dependency, the merge adds one node and one edge per dependency of each entry whose key is a base node, every edge from a base node |
| FlowDependencies.MergedShape | app/analyze/_components/flow/utills.js:1009-1029 | the merge holds as many nodes as edges, one per dependency of each analysed file present in the base layout, and every edge starts at a base node |
| FlowDependencies.EdgesFromBase | app/analyze/_components/flow/utills.js:1024 | appending edges from a base node keeps every edge starting at a base node |
| FlowDependencies.MergeDependencyNodes | app/analyze/_components/flow/utills.js:1009-1029 | the loop over the analysis map builds the specified merge, placing each file's dependencies clear of the base nodes and those placed before |
| ReverseDependencies.KeyList | test.js:51 | the keys of the forward graph in their order, one per entry |
| ReverseDependencies.ImportersSnoc | test.js:54-60 | one more forward entry adds its key once per time it imports the file, after the earlier importers |
| ReverseDependencies.ReverseExt | test.js:47-63 | a map with exactly the forward keys, each holding its importers, is the reverse graph |
| ReverseDependencies.PushImporter | test.js:55-59 | the inner loop keeps the keys and appends the importer under each import target that is a key, once per occurrence |
| ReverseDependencies.PushStep | test.js:55-59 | one more import of the inner loop keeps its invariant; a target that is no key is skipped |
| ReverseDependencies.GenerateReverseDependencies | test.js:47-63 | the nested loops build exactly the reverse graph |
| ReverseDependencies.ReverseKeys | test.js:51 | the reverse graph has exactly the keys of the forward graph, whether or not anything imports them |
| ReverseDependencies.NotImportedEmpty | test.js:51-60 | a file nobody imports keeps an empty importer list |
| ReverseDependencies.ImportersMember | test.js:54-60 | y is among the importers of x exactly when y is a forward key whose imports contain x |
| ReverseDependencies.ReverseMember | test.js:47-63 | both directions of the inversion: y is listed under x in the reverse graph exactly when y imports x in the forward graph |
| ReverseDependencies.ImportersMultiplicity | test.js:54-60 | y appears among the importers of x as many times as there are forward edges from y to x |
| ReverseDependencies.EdgeCountDistinct | test.js:47-63 | with distinct keys, the edges from a key to x are the occurrences of x in its imports |
| ReverseDependencies.EdgeCountAbsent | test.js:47-63 | a file that is no key has no edges out |
| ReverseDependencies.OccurrencesCountIn | test.js:55-59 | the pushes of one importer are the imports that are keys |
| ReverseDependencies.TotalEdges | test.js:47-63 | the importer lists together hold one entry per forward edge into a key |
| ReverseDependencies.ReverseSize | test.js:47-63 | with distinct keys, the lengths of the reverse lists add up to the forward edges whose target is a key, so no edge is lost or doubled |
| ExplorerState.Toggle | app/analyze/hooks/useDependencyView.js:24-34 | the toggled id changes membership and no other id does |
| ExplorerState.ToggleTwice | app/analyze/hooks/useDependencyView.js:24-34 | toggling the same id twice gives back the set it started from |
| ExplorerState.CollapseAll | app/analyze/hooks/useDependencyView.js:87-93 | collapsing returns to the initial expanded set, the first two layers "root" and "root-app" |
| ExplorerState.CollectFolderIds | app/analyze/hooks/useDependencyView.js:37-66 | the recursive walk collects exactly the specified folder ids |
| ExplorerState.ChildFolderIdsCover | app/analyze/hooks/useDependencyView.js:37-66 | the ids of every child folder walked so far are collected |
| ExplorerState.ChildFolderIdsFind | app/analyze/hooks/useDependencyView.js:37-66 | every collected child id comes from one of the child folders walked so far |
| ExplorerState.FolderIdsComplete | app/analyze/hooks/useDependencyView.js:37-66 | every folder reached by a route of child folders contributes the id of its layout path |
| ExplorerState.FolderIdsSound | app/analyze/hooks/useDependencyView.js:37-66 | every collected id is the id of a folder reached by a route of child folders |
| ExplorerState.FolderIdsRoutes | app/analyze/hooks/useDependencyView.js:37-66 | an id is collected exactly when it is the layout id of a folder reachable through folders only |
| ExplorerState.TopIdsMember | app/analyze/hooks/useDependencyView.js:69-84 | the ids collected over the top-level children are those collected below one of them |
| ExplorerState.ExpandAllIds | app/analyze/hooks/useDependencyView.js:69-84 | expanding all replaces the expanded set with the ids collected from the structure, or keeps it without a structure |
| ExplorerState.ExpandAllRoutes | app/analyze/hooks/useDependencyView.js:69-84 | after expanding all, exactly "root" and the ids of the folders reachable through folders from the top-level children are expanded |
| ExplorerState.SetResultLookup | app/analyze/hooks/useDependencyView.js:101-103 | setting a result makes the key map to the value and leaves the other keys as they were |
| ExplorerState.DeleteResultLookup | app/analyze/hooks/useDependencyView.js:99-100 | deleting a result leaves the key without a value and the other keys as they were |
| ExplorerState.HandleLookup | app/analyze/hooks/useDependencyView.js:96-108 | after the update the file maps to its new data, or to nothing when the data is null, and every other file keeps its result |
| ExplorerState.SetResultKeys | app/analyze/hooks/useDependencyView.js:101-103 | a new key is added at the end of the insertion order; an existing key keeps its place |
| ExplorerState.KeysMember | app/analyze/hooks/useDependencyView.js:96-108 | a key is listed exactly when some entry has it |
| ExplorerState.HandleDistinct | app/analyze/hooks/useDependencyView.js:96-108 | the results never hold a key twice |
| ExplorerState.SetDistinct | app/analyze/hooks/useDependencyView.js:101-103 | setting a result keeps the keys distinct |
| ExplorerState.DeleteDistinct | app/analyze/hooks/useDependencyView.js:99-100 | deleting keeps the keys distinct and only entries that were there |
| ExplorerState.GraphDataShape | app/analyze/hooks/useDependencyView.js:111-147 | without a structure the graph is empty; otherwise it is the tree layout followed by one node and one edge per dependency of each analysed file in the layout, the new edges starting at layout nodes, and a folder root's graph has one node more than edges |
| CodeFlowView.FindApp | app/analyze/_components/codeFlow.js:39-59 | finds a folder named "app" among the children when there is one, and none exactly when no child is such a folder |
| CodeFlowView.FindAppFirst | app/analyze/_components/codeFlow.js:39-59 | the folder found is the first "app" folder among the children |
| CodeFlowView.FilteredShape | app/analyze/_components/codeFlow.js:39-59 | a structure stays present; with an "app" folder the root keeps every field but its children, which become that folder alone; without one the structure is kept as it is |
| CodeFlowView.FilteredIdempotent | app/analyze/_components/codeFlow.js:39-59 | filtering the filtered structure changes nothing |
| CodeFlowView.OnData | app/analyze/_components/codeFlow.js:96-109 | when the filtered data is there the view resets to the first two layers and clears the flag, keeping the results; without data nothing changes |
| CodeFlowView.ExplorerUpdates | app/analyze/_components/codeFlow.js:112-122 | toggling flips one id and touches nothing else; a dependency result changes only the result of its file |
| CodeFlowView.GraphShape | app/analyze/_components/codeFlow.js:201-228 | no structure gives no graph; otherwise the graph starts with the layout of the filtered structure and adds as many nodes as edges |
| CodeFlowView.CollapseAfterExpand | app/analyze/_components/codeFlow.js:125-176 | collapsing after expanding all returns to what the data effect set; expanding sets the flag and keeps the results |
| CodeFlowView.RootAppId | app/analyze/_components/codeFlow.js:102-104 | the layout id of the "app" folder under the root is "root-app" |
| CodeFlowView.RootId | app/analyze/_components/codeFlow.js:99-100 | the layout id of the root is "root" |
| CodeFlowView.AppOnlyFirstLayer | app/analyze/_components/codeFlow.js:96-109 | for a root whose only child is the "app" folder, the ids opened first are exactly the root and that folder as laid out |
| CodeFlowView.FirstTwoLayersOfFiltered | app/analyze/_components/codeFlow.js:96-109 | when the project has an "app" folder, the two ids the view opens are exactly the root and its only child folder |
| CodeFlowView.ExpandAllKeepsFirstTwo | app/analyze/_components/codeFlow.js:125-155 | expanding all keeps the first two layers open |
| LegacyCodeFlow.Dims | components/CodeFlow.js:906-939 | every subtree is at least one card, 300 by 120 |
| LegacyCodeFlow.FolderSpan | components/CodeFlow.js:924-929 | the running width over the child folders is never negative and the running height at least one card |
| LegacyCodeFlow.CalculateTreeDimensions | components/CodeFlow.js:906-939 | the recursive loop over the child folders computes the specified extent |
| LegacyCodeFlow.FolderSpanCovers | components/CodeFlow.js:924-929 | the running width covers each child subtree walked so far plus its 50 gap, and the running height each one's height |
| LegacyCodeFlow.ExpandedDims | components/CodeFlow.js:906-939 | an expanded folder is a level taller than its card and than every child subtree, wider than each child subtree plus its gap, and at least 240 per file wide |
| LegacyCodeFlow.CollapsedDims | components/CodeFlow.js:910-912 | a collapsed folder or a file is one 300 by 120 card |
| LegacyCodeFlow.ProcessNode | components/CodeFlow.js:941-1076 | placing a node appends exactly the cards and edges the layout specifies, its file cards carrying the project path handed down from the root |
| LegacyCodeFlow.ProcessChildren | components/CodeFlow.js:1000-1075 | placing an expanded folder's children appends what the layout specifies, with the same project path |
| LegacyCodeFlow.ChildrenUnfold | components/CodeFlow.js:1000-1075 | the children's layout is the folder pass from the left edge followed by the file pass |
| LegacyCodeFlow.TotalChildWidth | components/CodeFlow.js:1004-1011 | the children's total width is the specified sum of folder widths, gaps and file slots |
| LegacyCodeFlow.ProcessChildFolders | components/CodeFlow.js:1016-1031 | the loop over the child folders appends their subtrees, with the same project path, each centred in its own width, and moves the cursor by width plus gap |
| LegacyCodeFlow.ProcessFiles | components/CodeFlow.js:1034-1074 | the loop over the files appends one card, carrying the project path, and one edge per file, 240 apart |
| LegacyCodeFlow.FoldersStep | components/CodeFlow.js:1016-1031 | one more child folder is placed centred in its width and moves the cursor by its width plus the gap |
| LegacyCodeFlow.BuildTreeLayout | components/CodeFlow.js:893-1083 | the layout of the whole tree is the specified one, starting from the root path "root", and every file card carries the project path stored on the root ("" when there is none) |
| LegacyCodeFlow.GrowsTrans | components/CodeFlow.js:941-1076 | growing twice is growing |
| LegacyCodeFlow.PushGrows | components/CodeFlow.js:960-997 | pushing a card on the given row grows the output |
| LegacyCodeFlow.NodeGrows | components/CodeFlow.js:941-1076 | placing a node keeps the earlier output and puts every added card on a row at or below its own |
| LegacyCodeFlow.TreeLayoutFilesCarryRoot | components/CodeFlow.js:1046-1080 | every file card of the layout carries the project path the layout was given |
| LegacyCodeFlow.ChildrenGrows | components/CodeFlow.js:1000-1075 | the children's cards all lie on rows at or below the next level |
| LegacyCodeFlow.FoldersGrow | components/CodeFlow.js:1016-1031 | the folder pass only adds cards at or below the children's row |
| LegacyCodeFlow.FilesGrow | components/CodeFlow.js:1034-1074 | the file pass only adds cards on the children's row |
| LegacyCodeFlow.NodeFirst | components/CodeFlow.js:960-997 | a folder's own card comes first in its layout, centred on its x with its top at its y |
| LegacyCodeFlow.TreeLayoutRows | components/CodeFlow.js:893-1083 | the root card comes first, centred on x = 0 with its top at y = 100, and every card lies 100 + 280 times some depth down |
| LegacyCodeFlow.SiblingStep | components/CodeFlow.js:1016-1074 | each child starts at least one 240 slot right of the one before |
| LegacyCodeFlow.SiblingsIncreasing | components/CodeFlow.js:1016-1074 | later children lie further right, by at least 240 per step |
| LegacyCodeFlow.FoldersX | components/CodeFlow.js:1016-1031 | after i child folders the cursor has moved by their widths and gaps |
| LegacyCodeFlow.FilesX | components/CodeFlow.js:1034-1074 | after i files the cursor has moved by i slots and i cards were pushed |
| LegacyCodeFlow.FolderCardKept | components/CodeFlow.js:1016-1031 | child folder k's card is pushed first in its subtree, centred in its width, and kept by the later folders |
| LegacyCodeFlow.FileCardKept | components/CodeFlow.js:1034-1050 | file j's card has id "parent-file-j" and sits j slots right of the cursor it starts from, 10 in |
| LegacyCodeFlow.FolderChildAt | components/CodeFlow.js:1016-1074 | child folder k's card keeps its id and place after the files are pushed |
| LegacyCodeFlow.FileChildAt | components/CodeFlow.js:1034-1074 | a file child's card is where the file slots after the folders put it |
| LegacyCodeFlow.FileSibling | components/CodeFlow.js:1034-1050 | a file child's id comes from its index among the files and its place from the folders' span |
| LegacyCodeFlow.ChildCardAt | components/CodeFlow.js:1000-1075 | every child of an expanded folder gets a card with its id one level lower, at its place in the left-to-right order centred under the folder |
| LegacyCodeFlow.FirstLayerAsWrittenMisses | components/CodeFlow.js:545-558 | a top-level folder named "a.b" does not start expanded as written: the set holds "root-a.b" while its card's id is "root-a-b" |
| LegacyCodeFlow.DottedChildId | components/CodeFlow.js:902-904 | the layout id of "a.b" under the root is "root-a-b" |
| LegacyCodeFlow.FirstLayer | components/CodeFlow.js:545-558 | the corrected first layer always holds the root's id |
| LegacyCodeFlow.FirstLayerExpandsTopFolders | components/CodeFlow.js:545-558 | the corrected first layer is exactly the root and its folder children, by the ids the layout gives them: an id is in it if and only if it is the root's id or the sibling id of some top-level folder |
| LegacyCodeFlow.FirstLayerCardsOpen | components/CodeFlow.js:545-558 | laid out from the corrected first layer, every top-level folder gets a card whose id is in that layer, so it starts expanded |
| LegacyDependencies.GridPosition | components/CodeFlow.js:608-617 | dependency nodes go in three columns 300 apart centred on the parent, starting 200 below it |
| LegacyDependencies.GridNextRow | components/CodeFlow.js:612-617 | three places on, a node lies in the same column one 180 row lower |
| LegacyDependencies.GridDistinct | components/CodeFlow.js:612-617 | no two dependencies of one file share a place |
| LegacyDependencies.CreateDependencyNodes | components/CodeFlow.js:589-685 | the loop builds the specified grid cards and edges for the local then external dependencies |
| LegacyDependencies.GridShape | components/CodeFlow.js:589-685 | one card and one edge per dependency, with id "parent-dep-key", at its grid place, the edge from the file to it and dashed exactly for an external dependency |
| LegacyDependencies.FindCard | components/CodeFlow.js:717 | finds a card with the id when there is one, and none exactly when no card has it |
| LegacyDependencies.HandleDependencyAnalysis | components/CodeFlow.js:687-756 | the file is marked as analysed; a file already analysed, without a card or with dependency cards already adds nothing; otherwise the cards and edges only grow, one edge per added card, every added card named after the file |
| LegacyDependencies.NoSecondRound | components/CodeFlow.js:722-733 | once a file's dependency cards are there, a second analysis adds nothing even when the analysed set has forgotten the file |
| SchemaGraph.FormatFieldType | app/api/analyze-schema/route.js:420-434 | the displayed type is the field's type followed by "[]" exactly for a list, and by "?" exactly for an optional scalar |
| SchemaGraph.FormatDefault | app/api/analyze-schema/route.js:439-457 | no default shows nothing; a function default ends in "()" after its name; a non-empty string is the text in double quotes; any other literal is its text |
| SchemaGraph.FieldConstraints | app/api/analyze-schema/route.js:343-375 | one badge per property that holds: id, unique, required scalar, default, foreign key, updated-at; the order is stated by FieldConstraintsFirst, FieldConstraintsLast and ConstraintInitials |
| SchemaGraph.ConstraintInitials | app/api/analyze-schema/route.js:343-375 | the six badges start with six different letters, so they are told apart by their first letter |
| SchemaGraph.FieldConstraintsFirst | app/api/analyze-schema/route.js:346-348 | the primary key badge comes first, exactly for an id field |
| SchemaGraph.FieldConstraintsLast | app/api/analyze-schema/route.js:370-372 | the auto update badge comes last, exactly for an updated-at field |
| SchemaGraph.GetModelConstraints | app/api/analyze-schema/route.js:380-415 | the loops over the composite key and the indexes build the specified constraints |
| SchemaGraph.ModelConstraintsShape | app/api/analyze-schema/route.js:380-415 | a composite primary key first when it spans more than one field, then one UNIQUE per unique index and one INDEX per index, each with its fields, in order |
| SchemaGraph.CountKind | app/api/analyze-schema/route.js:277-283 | a count of fields of one kind is at most the number of fields |
| SchemaGraph.ModelNodeShape | app/api/analyze-schema/route.js:251-300 | a model's node id is "model-" + name, with one schema row per field (its name, handle "Model.field", displayed type, relation flag) and stats counting the fields, relation fields, indexes and constraints |
| SchemaGraph.EnumNodeShape | app/api/analyze-schema/route.js:305-338 | an enum's node id is "enum-" + name, with a root row for the enum followed by one row per value, each with handle "Enum.value" |
| SchemaGraph.NodesOrder | app/api/analyze-schema/route.js:211-221 | one node per model, in order, then one node per enum |
| SchemaGraph.FindModel | app/api/analyze-schema/route.js:557 | finds a model with the name when there is one, and none exactly when no model has it |
| SchemaGraph.FindReverse | app/api/analyze-schema/route.js:468-475 | finds a field of the target that points back with the same relation name, and none exactly when there is no such field |
| SchemaGraph.DetermineRelationType | app/api/analyze-schema/route.js:462-485 | many-to-many exactly when both sides are lists, one-to-many exactly when one side is, one-to-one exactly when neither is |
| SchemaGraph.NoReverseRelation | app/api/analyze-schema/route.js:462-485 | without a target model or a reverse field, a list field is one-to-many and any other field one-to-one |
| SchemaGraph.RelationKey | app/api/analyze-schema/route.js:539-541 | the key is the relation name when there is one, otherwise the two model names in sorted order joined by "-" |
| SchemaGraph.RelationKeySymmetric | app/api/analyze-schema/route.js:539-541 | both sides of an unnamed relation get the same key, so its edge is drawn once |
| SchemaGraph.NonEmpty | app/api/analyze-schema/route.js:506-531 | the parts kept for the label are the non-empty ones |
| SchemaGraph.EdgeLabel | app/api/analyze-schema/route.js:506-531 | the label starts with the relation's symbol and is that symbol alone without a relation name and foreign key |
| SchemaGraph.LabelStart | app/api/analyze-schema/route.js:506-531 | a label whose first part is non-empty starts with that part |
| SchemaGraph.FirstId | app/api/analyze-schema/route.js:558 | finds an id field when there is one, and none exactly when no field is an id |
| SchemaGraph.CreateRelationEdge | app/api/analyze-schema/route.js:536-608 | a relation whose key was already seen gives no edge and leaves the keys alone; otherwise it gives the relation's edge and records its key |
| SchemaGraph.ScanProcessed | app/api/analyze-schema/route.js:224-243 | after a scan the seen keys are exactly the keys of the relation fields scanned |
| SchemaGraph.ScanRelations | app/api/analyze-schema/route.js:224-243 | the relation edges of a scan are one edge per first field of each relation key, in order |
| SchemaGraph.ScanEnums | app/api/analyze-schema/route.js:238-241 | the enum edges of a scan are one edge per enum field, in order |
| SchemaGraph.FirstSitesSeen | app/api/analyze-schema/route.js:224-243 | every field that drew a relation edge is a relation field whose key was seen |
| SchemaGraph.FirstSitesDistinct | app/api/analyze-schema/route.js:224-243 | no two relation edges share a relation key |
| SchemaGraph.FirstSitesCover | app/api/analyze-schema/route.js:224-243 | every relation key seen draws an edge |
| SchemaGraph.FirstSitesEarliest | app/api/analyze-schema/route.js:224-243 | the field that draws a relation's edge is its first field in model and field order |
| SchemaGraph.EdgesSpec | app/api/analyze-schema/route.js:206-246 | the relation edges are one per relation key, drawn from its first field, and the enum edges one per enum field |
| SchemaGraph.CreateNodes | app/api/analyze-schema/route.js:211-221 | the loops build the specified nodes |
| SchemaGraph.ScanModel | app/api/analyze-schema/route.js:225-242 | scanning one model's fields extends the scan by its fields |
| SchemaGraph.TransformToGraph | app/api/analyze-schema/route.js:206-246 | the loops build the specified nodes and edges |
| SchemaStats.CountWhere | app/api/analyze-schema/route.js:91-96 | a count of fields with a property is at most the number of fields |
| SchemaStats.RelatedModelsCount | app/api/analyze-schema/route.js:79-85 | the related models listed are as many as the relation fields counted |
| SchemaStats.InsertDesc | app/api/analyze-schema/route.js:105 | inserting a summary into the ordered breakdown keeps every summary and adds that one |
| SchemaStats.SortDesc | app/api/analyze-schema/route.js:105 | sorting the breakdown is a rearrangement of the summaries |
| SchemaStats.InsertDescSorted | app/api/analyze-schema/route.js:105 | inserting into a breakdown ordered by decreasing relations keeps it ordered |
| SchemaStats.SortDescSorted | app/api/analyze-schema/route.js:105 | the sorted breakdown is ordered by decreasing relation count and is a rearrangement of the summaries |
| SchemaStats.InsertDescStable | app/api/analyze-schema/route.js:105 | inserting a summary leaves the order among equal relation counts intact, with the new one first among its own count |
| SchemaStats.SortDescStable | app/api/analyze-schema/route.js:105 | the sort is stable: the summaries with any given relation count appear in their input order |
| SchemaStats.RemoveModelPrefix | app/api/analyze-schema/route.js:109 | removing "model-" from a model node id gives back the model's name |
| SchemaStats.FindSummary | app/api/analyze-schema/route.js:110 | finds the first summary with the name when there is one, and none exactly when no summary has it |
| SchemaStats.AddEdge | app/api/analyze-schema/route.js:108-121 | counting one edge keeps the summaries and their names in place |
| SchemaStats.Tally | app/api/analyze-schema/route.js:108-121 | counting the relation edges keeps the summaries and their names in place |
| SchemaStats.TallyRelationTypes | app/api/analyze-schema/route.js:108-121 | the loop over the relation edges computes the specified tally |
| SchemaStats.TallyCounts | app/api/analyze-schema/route.js:108-121 | each summary's relation types grow by the counts of the relation edges leaving its model, by type, when it is the first summary of that name, and by nothing otherwise |
| SchemaStats.AddEdgeAt | app/api/analyze-schema/route.js:109-120 | one relation edge bumps its type in the first summary of its source model and changes no other summary |
| SchemaStats.FindSame | app/api/analyze-schema/route.js:110 | the lookup by name gives the same index once the counts change, as the names stay |
| SchemaStats.CountType | app/api/analyze-schema/route.js:66-74 | the edges of one relation type are at most the edges |
| SchemaStats.CountEnumRefs | app/api/analyze-schema/route.js:62-64 | the enum reference edges are at most the edges |
| SchemaStats.CountRelations | app/api/analyze-schema/route.js:61 | the relation edges are at most the edges |
| SchemaStats.CountWithRelations | app/api/analyze-schema/route.js:197-198 | the models with relations are at most the models |
| SchemaStats.CardinalitiesSum | app/api/analyze-schema/route.js:61-74 | the one-to-one, one-to-many and many-to-many counts add up to the relation edges |
| SchemaStats.TallyKeepsRelations | app/api/analyze-schema/route.js:108-121 | counting the relation types leaves each summary's relation count alone |
| SchemaStats.StatsShape | app/api/analyze-schema/route.js:52-201 | the three relation counts add up to the total, the index total is regular plus unique, one summary per model in decreasing order of relations, and the most and least connected models exist exactly when there are models and bound every summary's relations |
| SchemaStats.BreakdownSorted | app/api/analyze-schema/route.js:77-121 | one summary per model, in decreasing order of relations |
| SchemaStats.StatsOfGraph | app/api/analyze-schema/route.js:52-201 | on the graph built from the schema, the relation total is the number of distinct relation keys and the enum references the number of enum fields |
| SchemaStats.FilterCounts | app/api/analyze-schema/route.js:61-64 | the counted relation and enum edges are exactly those the filters keep |
| SchemaView.EstimateHeight | app/analyze/hooks/useSchemaView.js:9-62 | the estimated height is the content height clamped to between 180 and 1200: kept when inside, 180 below, 1200 above |
| SchemaView.EstimateMonotone | app/analyze/hooks/useSchemaView.js:9-62 | more fields, constraints or indexes never give a smaller estimate |
| SchemaView.SectionMonotone | app/analyze/hooks/useSchemaView.js:26-45 | a section with more rows is never shorter; an empty section takes no room |
| SchemaView.SmallCardIsMinimum | app/analyze/hooks/useSchemaView.js:9-62 | a card with at most one field and neither constraints nor indexes gets the minimum height |
| SchemaView.OneMoreField | app/analyze/hooks/useSchemaView.js:17-19 | between the bounds, one more field adds exactly one 44 row |
| SchemaView.Corner | app/analyze/hooks/useSchemaView.js:171-177 | the stored position is the corner whose card, 320 wide and as tall as the estimate, is centred on the simulated point |
| SchemaView.PositionMapKeys | app/analyze/hooks/useSchemaView.js:171-177 | the position map holds exactly the ids of the nodes |
| SchemaView.PositionMapLast | app/analyze/hooks/useSchemaView.js:171-177 | a node's id maps to the corner of its own simulated point unless a later node has the same id |
| SchemaView.ForceLayoutShape | app/analyze/hooks/useSchemaView.js:74-183 | the layout keeps the nodes, their order and every field but the position, and puts each node whose id is not repeated later at the corner of its simulated point |
| SchemaView.ForceLayoutDistinct | app/analyze/hooks/useSchemaView.js:74-183 | with distinct ids every node goes to the corner of its own simulated point, keeping its id |
| SchemaView.ForceLayoutNoFallback | app/analyze/hooks/useSchemaView.js:180-183 | the old position is never kept: every node takes a position from the map |
| SchemaView.ApplyForceLayout | app/analyze/hooks/useSchemaView.js:74-183 | the loops compute the specified layout; no nodes give no nodes |
| SchemaView.GraphData | app/analyze/hooks/useSchemaView.js:224-253 | without schema data the graph is empty; otherwise the edges are kept unchanged and there is one laid-out node per node |
| SchemaView.LayoutOfModel | app/analyze/hooks/useSchemaView.js:224-253 | for the graph of a schema, the layout keeps each node's id and label |
| AnalyzePage.CountItemsLoop | app/analyze/page.js:68-86 | the loop over the children, recursing into folders, computes the specified counts |
| AnalyzePage.FilesAppend | app/analyze/page.js:68-86 | the files and folders of two lists together are the sums of each |
| AnalyzePage.CountsAreBelow | app/analyze/page.js:68-86 | the counts are exactly the files and the folders strictly below the node, each counted once |
| AnalyzePage.CountsAreBelowChildren | app/analyze/page.js:74-83 | the counts over the first i children are the files and folders among those children and below them |
| AnalyzePage.ChildStep | app/analyze/page.js:74-83 | one more child adds its own count and the counts below it |
| AnalyzePage.NothingBelow | app/analyze/page.js:69 | a file, or a folder without children, counts no files and no folders |
| AnalyzePage.GetProjectStats | app/analyze/page.js:88-115 | without a successful response holding a structure the summary is empty; otherwise the counts add up to the nodes below the root, the name falls back to "Unknown Project" only for an empty name, and the route figures are copied |
| AnalyzePage.StatsOfAnalysis | app/analyze/page.js:88-115 | for a successful response the summary counts the files and folders below the root and copies the route, endpoint and group figures |
| SideBar.Filter | app/analyze/_components/ProjectSideBar/sideBar.js:21-27 | the kept children are among at most as many and all satisfy the test |
| SideBar.FilterCount | app/analyze/_components/ProjectSideBar/sideBar.js:21-27 | a child is kept exactly when it satisfies the test, as often as it occurs |
| SideBar.FoldersAndFiles | app/analyze/_components/ProjectSideBar/sideBar.js:18-30 | the folders and the files together are all the children |
| SideBar.FoldersFirstShape | app/analyze/_components/ProjectSideBar/sideBar.js:18-30 | the listing is a rearrangement of the children with the folders first in name order and the files after in name order |
| SideBar.SortedGroup | app/analyze/_components/ProjectSideBar/sideBar.js:21-27 | sorting one group keeps it of one kind and puts it in name order |
| SideBar.SortedChildrenShape | app/analyze/_components/ProjectSideBar/sideBar.js:18-30 | a folder lists a rearrangement of its children, folders first, each group by name |
| SideBar.EmptyFolder | app/analyze/_components/ProjectSideBar/sideBar.js:18-19 | a folder without children lists nothing |
| SideBar.RootChildrenShape | app/analyze/_components/ProjectSideBar/sideBar.js:84-88 | at the root every child but the top-level "app" folders is listed, as often as it occurs, and no top-level "app" folder is |
| SideBar.RootChildrenOrder | app/analyze/_components/ProjectSideBar/sideBar.js:90-101 | the root listing has the folders first and each group by name |
| SideBar.FilteredStructureShape | app/analyze/_components/ProjectSideBar/sideBar.js:103-106 | the sidebar's root keeps every field of the structure but its children, which are the root listing |
| Strings.SortBySorted | lib/analyzers/dependency-analyzer.js:276-281 | sorting by a name key leaves the records in name order and is a rearrangement of them |
| Strings.InsertBySorted | lib/analyzers/dependency-analyzer.js:276-281 | inserting a record into a list in name order keeps it in name order |
| Strings.LexLeTotal | lib/analyzers/dependency-analyzer.js:276-281 | any two names compare one way or the other |
| Strings.JoinSplit | lib/analyzers/project-analyzer.js:61 | joining the split parts with the separator gives back the text |
| Strings.Trim | lib/analyzers/project-analyzer.js:121 | the trimmed line is a slice of the line with only white space cut before and after it, and it neither starts nor ends with white space |
| Strings.MapChars | app/analyze/_components/flow/utills.js:537 | each character is kept when it passes the test and replaced otherwise, the length unchanged |
| FlowLayout.CreateNodeId | app/analyze/_components/flow/utills.js:536-538 | an id is never longer than its path |
| FileSystem.ExistsKinds | lib/analyzers/dependency-analyzer.js:390-396 | a path exists exactly when it is a file or a directory, and never both |
| FileSystem.ReadFile | lib/analyzers/project-analyzer.js:10-14 | reading fails as missing exactly when the path does not exist, and yields content only for a file |
| ProjectAnalyzer.MarkedKind | lib/analyzers/project-analyzer.js:761-792 | a special file raises the flag of its own kind; a file of no special kind raises none |
| ProjectAnalyzer.HttpMethodsDistinct | lib/analyzers/project-analyzer.js:18-26 | the seven HTTP method names are distinct |

## Left out

- **The file system, the network and HTTP.** Reading directories and files is modelled on an abstract tree, `FileSystem.Entry`. The route handlers that serve the analyses over HTTP are not modelled. The client-side `fetch` calls are not modelled either.
- **The Babel parser.** It is replaced by the list of import-like nodes its traversal visits, in order. Parse failures come in as an error value.
- **md5 and the random short ids.** md5 is a function parameter. The random ids are values supplied with their nodes. Only equalities between ids are proved, not their text.
- **The force and dagre simulations.** The d3-force simulation of the schema view is a parameter: one centre per card. The dagre layout that the schema route computes is not modelled, because the view replaces those positions. Viewport sizes only feed the simulation, so they are left out.
- **Floating point.** Coordinates are exact reals, which matches the source, since its constants are multiples of ten and it only halves them.
- **The statistics averages.** They go through `toFixed(2)` and `parseFloat`, so `SchemaStats` keeps only the whole-number statistics.
- **React.** Rendering, effects, memoisation, `setState` batching, `fitView` timers and click handlers are not modelled. State updates are functions from the old state to the new one. The callbacks that cards carry are not part of the card data.
- **Colours, styles and icons.** Edge colours, stroke widths, label styles, badges and icons are not modelled. The one exception is the dash pattern that tells external edges apart.
- **Text comparison.** `localeCompare` and the default `Array.prototype.sort` are both modelled as code-unit lexicographic order. No locale collation is modelled.
- **Paths.** Only POSIX paths are modelled, not Windows separators.
- **`relationOnDelete` and `relationOnUpdate`.** The edge data carries these two schema values, but nothing reads them, so they are left out.
- **Absent schema values.** An empty `relationName` or `dbName` stands for an absent one, as the source's truthiness tests treat both alike.
- **Maps and objects.** A JavaScript `Map` or object filled in insertion order is a sequence of key–value pairs with distinct keys, kept in insertion order. For a plain object this differs from the source in two respects. First, `Object.keys` and `Object.entries` list integer-like keys ("0", "2024") first, in ascending numeric order, and only then the other keys in insertion order; the model keeps insertion order for every key. Second, `obj[key]` on a plain object also finds the properties every object inherits ("constructor", "toString", "valueOf", "hasOwnProperty", "__proto__" and the like), while the model finds only the keys it stored. The members this affects are named in the lines below.
- LayoutIndex: finds a layout only at a path where one was stored. The source's `layoutsByPath[p]` also finds an inherited property, a function, at a path such as "constructor" or "toString", and `layoutsByPath["__proto__"]` finds the object prototype.
- IndexLayouts: builds a map of the stored layouts only; the source's plain object also answers the inherited names, and storing a layout at the path "__proto__" replaces the object's prototype instead of adding a key.
- LayoutChainOf: leaves out the inherited value that the source's walk finds at a visited path named like an inherited property, so a route at or below "constructor" (from `app/constructor/page.js`) gets a chain one entry shorter than the source's, which unshifts that function.
- BuildLayoutInheritance: the inherited-name case of `LayoutChainOf` for every route, so `maxLayoutDepth` and `hasNestedLayouts` of the summary can be lower in the model than in the source for such routes.
- MapParallelRoutes: groups a slot under any parent path. For a parent path named like an inherited property, the source's `parallelByParent[p]` is already a function, so its `push` throws a `TypeError`; and a route at such a path with no slots gets that function as its `parallelSlots`, where the model gives none.
- SlotsBelongToRoute: states slot membership for the model's map only; the inherited-name cases of `MapParallelRoutes` (the thrown `TypeError`, the function-valued `parallelSlots`) are not covered.
- GroupApiRoutes: keeps the API groups in order of first appearance, while `Object.keys(apiGroups)` would list an integer-like first segment such as "2024" before "api". A group key named like a property every object inherits ("constructor", "toString", "__proto__" and the like) makes the source's `push` throw a `TypeError`; the model groups it like any other key.
- Bump: counts a field type named like an inherited property ("constructor", "toString" and the like) from 1, as any other. The source stores `NaN` there on the first count and restarts at 1 on the next. For "__proto__" it stores nothing at all.
- PushImporter: appends an importer only under an import target that is a key of the reverse graph. An import target named like an inherited property ("constructor", "toString" and the like) that is not a key makes the source's `push` throw a `TypeError`; the model skips it.
- PushStep: the same inherited-name case as `PushImporter`, one import at a time.
- GenerateReverseDependencies: the inherited-name case of `PushImporter`. A forward key "__proto__" would also replace the reverse graph's prototype instead of adding a key; the model adds it as a key. Integer-like file names keep insertion order, as under "Maps and objects".
- **The `.data` unwrap of a dependency result.** In `ExplorerState.HandleDependencyAnalysis` and `LegacyDependencies.HandleDependencyAnalysis`, the result comes in already unwrapped.
- **The `insights || {}` fallback.** `AnalyzePage.GetProjectStats` omits it, because an analysis always carries insights in the model.
- **Node types other than folder and file.** They do not occur in the tree the analyser builds. So `SideBar` has nothing of that kind to drop.
- **A sidebar over a file root.** `SideBar.FilteredStructure` of a file keeps the file. The source never hands the sidebar a file.
- **Project-level timestamps, logging and Prisma schema discovery.** Nothing that is modelled depends on them.
- **The in-place mutation of the initial position.** `findCompactPosition` copies it before moving the probe. Positions are values in the model, so that copy needs no modelling.

## Findings

| source | as written | input that shows it | evidently intended | confidence | as-written member | corrected member |
|---|---|---|---|---|---|---|
| components/CodeFlow.js:545-558 | the first layer adds `"root-" + name` for each top-level folder, without passing it through `createNodeId` | a top-level folder named `a.b`: the set holds `root-a.b`, but its card's id is `root-a-b`, so it does not start expanded | every top-level folder starts expanded, keyed by the id its card gets | not executed | LegacyCodeFlow.FirstLayerAsWrittenMisses | LegacyCodeFlow.FirstLayerExpandsTopFolders |
