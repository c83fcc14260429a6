/**
  The state behind the folder explorer: which folders are expanded, the
  ids that "expand all" collects, the dependency results kept per file,
  and the graph assembled from the layout and those results.

  The same code backs the dependency-view hook and the explorer component;
  the older view's toggle is the same function.
 */
module ExplorerState {
  import opened Wrappers
  import PA = ProjectAnalyzer
  import DA = DependencyAnalyzer
  import FL = FlowLayout
  import FD = FlowDependencies

  // ---------------------------------------------------------------------------
  // Expanding and collapsing
  // ---------------------------------------------------------------------------

  /** `toggleNode`: a copy of the set with `id`'s membership flipped. */
  function Toggle(s: set<string>, id: string): (r: set<string>)
    ensures id in r <==> id !in s
    ensures forall x :: x != id ==> (x in r <==> x in s)
  {
    if id in s then s - {id} else s + {id}
  }

  lemma ToggleTwice(s: set<string>, id: string)
    ensures Toggle(Toggle(s, id), id) == s
  {
  }

  /** The first two layers: the view starts with them and `collapseAll` returns to them. */
  const FirstTwoLayers: set<string> := {"root", "root-app"}

  function CollapseAll(): (r: set<string>)
    ensures r == FirstTwoLayers
  {
    {"root", "root-app"}
  }

  // ---------------------------------------------------------------------------
  // Folder ids
  // ---------------------------------------------------------------------------

  /**
    `getAllFolderIds`: the node's own id (a folder's, or the root's under
    the path "root"), then the ids below its folder children.
   */
  function FolderIds(n: PA.Node, parentPath: string, isRoot: bool): set<string>
    decreases n, 1
  {
    var currentPath := if isRoot then "root" else FL.ChildPath(parentPath, n.name);
    if n.Folder? then {FL.CreateNodeId(currentPath)} + ChildFolderIds(n, currentPath, |n.children|)
    else if isRoot then {FL.CreateNodeId(currentPath)}
    else {}
  }

  /** The ids below the folders among the first `i` children. */
  function ChildFolderIds(n: PA.Node, path: string, i: nat): set<string>
    requires n.Folder? && i <= |n.children|
    decreases n, 0, i
  {
    if i == 0 then {}
    else ChildFolderIds(n, path, i - 1) + (if n.children[i - 1].Folder? then FolderIds(n.children[i - 1], path, false) else {})
  }

  /** `getAllFolderIds`, adding into a set while it walks the children. */
  method CollectFolderIds(n: PA.Node, parentPath: string, isRoot: bool) returns (ids: set<string>)
    ensures ids == FolderIds(n, parentPath, isRoot)
    decreases n
  {
    var currentPath := if isRoot then "root" else FL.ChildPath(parentPath, n.name);
    var nodeId := FL.CreateNodeId(currentPath);
    ids := {};
    if n.Folder? || isRoot {
      ids := ids + {nodeId};
      if n.Folder? && |n.children| > 0 {
        var i := 0;
        while i < |n.children|
          invariant i <= |n.children|
          invariant ids == {nodeId} + ChildFolderIds(n, currentPath, i)
        {
          var child := n.children[i];
          if child.Folder? {
            var childIds := CollectFolderIds(child, currentPath, false);
            ids := ids + childIds;
          }
          i := i + 1;
        }
      }
    }
  }

  /** A chain of child indices that only passes through folders. */
  ghost predicate FolderRoute(n: PA.Node, route: seq<nat>)
    decreases |route|
  {
    n.Folder? && (route == [] || (route[0] < |n.children| && FolderRoute(n.children[route[0]], route[1..])))
  }

  /** The path at the end of the chain, `path` being `n`'s own. */
  ghost function RoutePath(n: PA.Node, path: string, route: seq<nat>): string
    requires FolderRoute(n, route)
    decreases |route|
  {
    if route == [] then path
    else RoutePath(n.children[route[0]], FL.ChildPath(path, n.children[route[0]].name), route[1..])
  }

  lemma ChildFolderIdsCover(n: PA.Node, path: string, i: nat, j: nat)
    requires n.Folder? && j < i <= |n.children| && n.children[j].Folder?
    ensures FolderIds(n.children[j], path, false) <= ChildFolderIds(n, path, i)
    decreases i
  {
    if j < i - 1 {
      ChildFolderIdsCover(n, path, i - 1, j);
    }
  }

  lemma ChildFolderIdsFind(n: PA.Node, path: string, i: nat, id: string) returns (j: nat)
    requires n.Folder? && i <= |n.children| && id in ChildFolderIds(n, path, i)
    ensures j < i && n.children[j].Folder? && id in FolderIds(n.children[j], path, false)
    decreases i
  {
    if id in ChildFolderIds(n, path, i - 1) {
      j := ChildFolderIdsFind(n, path, i - 1, id);
    } else {
      j := i - 1;
    }
  }

  /** Every folder reached through folders has its id collected. */
  lemma {:induction false} FolderIdsComplete(n: PA.Node, parentPath: string, route: seq<nat>)
    requires FolderRoute(n, route)
    ensures FL.CreateNodeId(RoutePath(n, FL.ChildPath(parentPath, n.name), route)) in FolderIds(n, parentPath, false)
    decreases |route|
  {
    var path := FL.ChildPath(parentPath, n.name);
    if route != [] {
      var j := route[0];
      var child := n.children[j];
      FolderIdsComplete(child, path, route[1..]);
      ChildFolderIdsCover(n, path, |n.children|, j);
    }
  }

  /** Every collected id is the id of a folder reached through folders. */
  lemma {:induction false} FolderIdsSound(n: PA.Node, parentPath: string, id: string) returns (route: seq<nat>)
    requires id in FolderIds(n, parentPath, false)
    ensures FolderRoute(n, route) && id == FL.CreateNodeId(RoutePath(n, FL.ChildPath(parentPath, n.name), route))
    decreases n
  {
    var path := FL.ChildPath(parentPath, n.name);
    if id == FL.CreateNodeId(path) {
      route := [];
    } else {
      var j := ChildFolderIdsFind(n, path, |n.children|, id);
      var rest := FolderIdsSound(n.children[j], path, id);
      route := [j] + rest;
      assert route[1..] == rest;
    }
  }

  /** `getAllFolderIds` collects exactly the ids of the folders reached through folder children. */
  lemma FolderIdsRoutes(n: PA.Node, parentPath: string, id: string)
    ensures id in FolderIds(n, parentPath, false)
        <==> exists route :: FolderRoute(n, route) && id == FL.CreateNodeId(RoutePath(n, FL.ChildPath(parentPath, n.name), route))
  {
    if id in FolderIds(n, parentPath, false) {
      var route := FolderIdsSound(n, parentPath, id);
    }
    forall route | FolderRoute(n, route) && id == FL.CreateNodeId(RoutePath(n, FL.ChildPath(parentPath, n.name), route))
      ensures id in FolderIds(n, parentPath, false)
    {
      FolderIdsComplete(n, parentPath, route);
    }
  }

  /** The ids collected under each of the first `i` top-level children. */
  function TopIds(cs: seq<PA.Node>, i: nat): set<string>
    requires i <= |cs|
  {
    if i == 0 then {} else TopIds(cs, i - 1) + FolderIds(cs[i - 1], "root", false)
  }

  lemma TopIdsMember(cs: seq<PA.Node>, i: nat, id: string)
    requires i <= |cs|
    ensures id in TopIds(cs, i) <==> exists k :: 0 <= k < i && id in FolderIds(cs[k], "root", false)
  {
    if i > 0 {
      TopIdsMember(cs, i - 1, id);
    }
  }

  /**
    `expandAll`: "root" and every id collected under the root's children;
    without a structure the set stays as it is.
   */
  function ExpandAll(structure: Option<PA.Node>, current: set<string>): set<string> {
    match structure
    case None => current
    case Some(root) => {"root"} + (if root.Folder? then TopIds(root.children, |root.children|) else {})
  }

  /** `expandAll`, adding into a set child by child. */
  method ExpandAllIds(structure: Option<PA.Node>, current: set<string>) returns (expanded: set<string>)
    ensures expanded == ExpandAll(structure, current)
  {
    if structure.None? {
      return current;
    }
    var root := structure.value;
    var allFolderIds := {"root"};
    if root.Folder? {
      var i := 0;
      while i < |root.children|
        invariant i <= |root.children|
        invariant allFolderIds == {"root"} + TopIds(root.children, i)
      {
        var childIds := CollectFolderIds(root.children[i], "root", false);
        allFolderIds := allFolderIds + childIds;
        i := i + 1;
      }
    }
    expanded := allFolderIds;
  }

  /**
    With a folder structure, "expand all" holds "root" and exactly the ids
    of the folders reached from the root through folders.
   */
  lemma ExpandAllRoutes(root: PA.Node, current: set<string>, id: string)
    requires root.Folder?
    ensures id in ExpandAll(Some(root), current)
        <==> id == "root"
             || exists k, route :: 0 <= k < |root.children| && FolderRoute(root.children[k], route)
                  && id == FL.CreateNodeId(RoutePath(root.children[k], FL.ChildPath("root", root.children[k].name), route))
  {
    var cs := root.children;
    TopIdsMember(cs, |cs|, id);
    if id in TopIds(cs, |cs|) {
      var k :| 0 <= k < |cs| && id in FolderIds(cs[k], "root", false);
      var route := FolderIdsSound(cs[k], "root", id);
    }
    forall k, route | 0 <= k < |cs| && FolderRoute(cs[k], route)
                      && id == FL.CreateNodeId(RoutePath(cs[k], FL.ChildPath("root", cs[k].name), route))
      ensures id in TopIds(cs, |cs|)
    {
      FolderIdsComplete(cs[k], "root", route);
    }
  }

  // ---------------------------------------------------------------------------
  // Dependency results per file
  // ---------------------------------------------------------------------------

  /** The results map in insertion order, as a JavaScript `Map` iterates. */
  type Results = seq<(string, DA.DependencyAnalysis)>

  function Lookup(m: Results, key: string): Option<DA.DependencyAnalysis> {
    if m == [] then None else if m[0].0 == key then Some(m[0].1) else Lookup(m[1..], key)
  }

  function Keys(m: Results): seq<string> {
    if m == [] then [] else [m[0].0] + Keys(m[1..])
  }

  /** `map.set`: an existing key keeps its place, a new one goes last. */
  function SetResult(m: Results, key: string, value: DA.DependencyAnalysis): Results {
    if m == [] then [(key, value)]
    else if m[0].0 == key then [(key, value)] + m[1..]
    else [m[0]] + SetResult(m[1..], key, value)
  }

  /** `map.delete` */
  function DeleteResult(m: Results, key: string): Results {
    if m == [] then []
    else if m[0].0 == key then DeleteResult(m[1..], key)
    else [m[0]] + DeleteResult(m[1..], key)
  }

  /** `handleDependencyAnalysis`: no data removes the file's entry, data replaces it. */
  function HandleDependencyAnalysis(m: Results, fileNodeId: string, data: Option<DA.DependencyAnalysis>): Results {
    match data
    case None => DeleteResult(m, fileNodeId)
    case Some(d) => SetResult(m, fileNodeId, d)
  }

  lemma {:induction false} SetResultLookup(m: Results, key: string, value: DA.DependencyAnalysis, other: string)
    ensures Lookup(SetResult(m, key, value), other) == if other == key then Some(value) else Lookup(m, other)
    decreases |m|
  {
    if m != [] && m[0].0 != key {
      SetResultLookup(m[1..], key, value, other);
    }
  }

  lemma {:induction false} DeleteResultLookup(m: Results, key: string, other: string)
    ensures Lookup(DeleteResult(m, key), other) == if other == key then None else Lookup(m, other)
    decreases |m|
  {
    if m != [] {
      DeleteResultLookup(m[1..], key, other);
    }
  }

  /** The file's entry becomes the data given, and every other entry is unchanged. */
  lemma HandleLookup(m: Results, fileNodeId: string, data: Option<DA.DependencyAnalysis>, other: string)
    ensures Lookup(HandleDependencyAnalysis(m, fileNodeId, data), other)
         == if other == fileNodeId then data else Lookup(m, other)
  {
    match data
    case None => DeleteResultLookup(m, fileNodeId, other);
    case Some(d) => SetResultLookup(m, fileNodeId, d, other);
  }

  /** Setting keeps the order of the keys, and a new key goes last. */
  lemma {:induction false} SetResultKeys(m: Results, key: string, value: DA.DependencyAnalysis)
    ensures Keys(SetResult(m, key, value)) == if key in Keys(m) then Keys(m) else Keys(m) + [key]
    decreases |m|
  {
    if m != [] && m[0].0 != key {
      SetResultKeys(m[1..], key, value);
      assert Keys(m) == [m[0].0] + Keys(m[1..]);
    }
  }

  ghost predicate DistinctKeys(m: Results) {
    forall i, j :: 0 <= i < j < |m| ==> m[i].0 != m[j].0
  }

  lemma {:induction false} KeysMember(m: Results, key: string)
    ensures key in Keys(m) <==> exists i :: 0 <= i < |m| && m[i].0 == key
    decreases |m|
  {
    if m != [] {
      KeysMember(m[1..], key);
      assert forall i :: 0 < i < |m| ==> m[i] == m[1..][i - 1];
      if exists i :: 0 <= i < |m[1..]| && m[1..][i].0 == key {
        var i :| 0 <= i < |m[1..]| && m[1..][i].0 == key;
        assert m[i + 1].0 == key;
      }
    }
  }

  /** Each file has at most one entry, before and after. */
  lemma HandleDistinct(m: Results, fileNodeId: string, data: Option<DA.DependencyAnalysis>)
    requires DistinctKeys(m)
    ensures DistinctKeys(HandleDependencyAnalysis(m, fileNodeId, data))
  {
    match data
    case None => DeleteDistinct(m, fileNodeId);
    case Some(d) => SetDistinct(m, fileNodeId, d);
  }

  lemma {:induction false} SetDistinct(m: Results, key: string, value: DA.DependencyAnalysis)
    requires DistinctKeys(m)
    ensures DistinctKeys(SetResult(m, key, value))
    decreases |m|
  {
    var r := SetResult(m, key, value);
    if m == [] {
    } else if m[0].0 == key {
      forall i, j | 0 <= i < j < |r| ensures r[i].0 != r[j].0 {
        assert r[j] == m[j];
        if i > 0 {
          assert r[i] == m[i];
        }
      }
    } else {
      var tail := m[1..];
      assert DistinctKeys(tail) by {
        forall i, j | 0 <= i < j < |tail| ensures tail[i].0 != tail[j].0 {
          assert tail[i] == m[i + 1] && tail[j] == m[j + 1];
        }
      }
      SetDistinct(tail, key, value);
      var rest := SetResult(tail, key, value);
      SetResultKeys(tail, key, value);
      KeysMember(tail, m[0].0);
      KeysMember(rest, m[0].0);
      assert m[0].0 !in Keys(tail) by {
        forall i | 0 <= i < |tail| ensures tail[i].0 != m[0].0 {
          assert tail[i] == m[i + 1];
        }
      }
      assert m[0].0 != key;
      assert m[0].0 !in Keys(rest);
      forall i, j | 0 <= i < j < |r| ensures r[i].0 != r[j].0 {
        assert r[j] == rest[j - 1];
        if i > 0 {
          assert r[i] == rest[i - 1];
        }
      }
    }
  }

  lemma {:induction false} DeleteDistinct(m: Results, key: string)
    requires DistinctKeys(m)
    ensures DistinctKeys(DeleteResult(m, key))
    ensures forall i :: 0 <= i < |DeleteResult(m, key)| ==> DeleteResult(m, key)[i] in m
    decreases |m|
  {
    if m != [] {
      var tail := m[1..];
      assert DistinctKeys(tail) by {
        forall i, j | 0 <= i < j < |tail| ensures tail[i].0 != tail[j].0 {
          assert tail[i] == m[i + 1] && tail[j] == m[j + 1];
        }
      }
      DeleteDistinct(tail, key);
      var rest := DeleteResult(tail, key);
      var r := DeleteResult(m, key);
      if m[0].0 != key {
        forall i, j | 0 <= i < j < |r| ensures r[i].0 != r[j].0 {
          assert r[j] == rest[j - 1];
          assert rest[j - 1] in tail;
          if i > 0 {
            assert r[i] == rest[i - 1];
          } else {
            var t :| 0 <= t < |tail| && tail[t] == rest[j - 1];
            assert tail[t] == m[t + 1];
          }
        }
        forall i | 0 <= i < |r| ensures r[i] in m {
          if i > 0 {
            assert r[i] == rest[i - 1];
            assert rest[i - 1] in tail;
          }
        }
      } else {
        forall i | 0 <= i < |r| ensures r[i] in m {
          assert r[i] in tail;
        }
      }
    }
  }

  // ---------------------------------------------------------------------------
  // The graph
  // ---------------------------------------------------------------------------

  /**
    `graphData`: nothing without a structure; otherwise the tree layout's
    nodes and edges followed by those of the dependencies merged in.
    `projectRoot` is the project path stored on the structure's root.
   */
  function GraphData(structure: Option<PA.Node>, projectRoot: string, expanded: set<string>, results: Results): FL.Out {
    match structure
    case None => FL.Out([], [])
    case Some(root) =>
      var base := FL.TreeLayout(root, expanded, projectRoot);
      var deps := FD.Merged(base.nodes, results);
      FL.Out(base.nodes + deps.nodes, base.edges + deps.edges)
  }

  /**
    The layout comes first, then one node and one edge per dependency of
    each entry whose file is on screen, every such edge leaving a layout
    node; a folder structure keeps one more node than edges.
   */
  lemma GraphDataShape(structure: Option<PA.Node>, projectRoot: string, expanded: set<string>, results: Results)
    ensures structure.None? ==> GraphData(structure, projectRoot, expanded, results) == FL.Out([], [])
    ensures structure.Some? ==>
      var base := FL.TreeLayout(structure.value, expanded, projectRoot);
      var o := GraphData(structure, projectRoot, expanded, results);
      |base.nodes| <= |o.nodes| && o.nodes[..|base.nodes|] == base.nodes
      && |base.edges| <= |o.edges| && o.edges[..|base.edges|] == base.edges
      && |o.nodes| == |base.nodes| + FD.FoundDeps(base.nodes, results, |results|)
      && |o.nodes| - |base.nodes| == |o.edges| - |base.edges|
      && (forall k :: |base.edges| <= k < |o.edges| ==> FD.IsBaseId(base.nodes, o.edges[k].source))
      && (structure.value.Folder? ==> |o.nodes| == |o.edges| + 1)
  {
    if structure.Some? {
      var root := structure.value;
      var base := FL.TreeLayout(root, expanded, projectRoot);
      var deps := FD.Merged(base.nodes, results);
      FD.MergedShape(base.nodes, results);
      if root.Folder? {
        assert |base.nodes| == |base.edges| + 1 by { FL.TreeLayoutIsTree(root, expanded, projectRoot); }
      }
      var o := FL.Out(base.nodes + deps.nodes, base.edges + deps.edges);
      assert o.nodes[..|base.nodes|] == base.nodes;
      assert o.edges[..|base.edges|] == base.edges;
      forall k | |base.edges| <= k < |o.edges| ensures FD.IsBaseId(base.nodes, o.edges[k].source) {
        assert o.edges[k] == deps.edges[k - |base.edges|];
      }
    }
  }
}
