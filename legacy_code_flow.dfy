/**
  The older explorer view: its own top-down tree layout (every level 280
  below its parent, children packed left to right under it, no collision
  search), the first-layer expanded set, the three-column grid of
  dependency nodes under an analysed file, and the guard that keeps an
  analysed file from getting its dependency nodes twice.

  Node ids and child paths follow the same scheme as the live layout.
 */
module LegacyCodeFlow {
  import opened Strings
  import opened Wrappers
  import opened Geometry
  import PA = ProjectAnalyzer
  import DA = DependencyAnalyzer
  import FL = FlowLayout
  import FD = FlowDependencies

  const CollapsedWidth: real := 300.0
  const CollapsedHeight: real := 120.0
  const LevelHeight: real := 280.0
  const FolderGap: real := 50.0
  const FileSlot: real := 240.0
  const FolderHalfWidth: real := 140.0
  const RootTopY: real := 100.0

  // ---------------------------------------------------------------------------
  // Subtree extents
  // ---------------------------------------------------------------------------

  datatype Extent = Extent(width: real, height: real)

  /** `calculateTreeDimensions`: a collapsed node, or one without children, is one 300 by 120 slot. */
  function Dims(n: PA.Node, path: string, expanded: set<string>): (d: Extent)
    ensures d.width >= CollapsedWidth && d.height >= CollapsedHeight
    decreases n, 1
  {
    if FL.CreateNodeId(path) !in expanded || !n.Folder? then Extent(CollapsedWidth, CollapsedHeight)
    else
      var span := FolderSpan(n, path, expanded, |FL.Folders(n.children)|);
      var files := FL.Files(n.children);
      var total := span.width + (if |files| > 0 then (|files| as real) * FileSlot else 0.0);
      Extent(FL.Max(total, CollapsedWidth), span.height + LevelHeight)
  }

  /** The running totals over the first `i` child folders: widths plus gaps, and the tallest. */
  function FolderSpan(n: PA.Node, path: string, expanded: set<string>, i: nat): (d: Extent)
    requires n.Folder? && i <= |FL.Folders(n.children)|
    ensures d.width >= 0.0 && d.height >= CollapsedHeight
    decreases n, 0, i
  {
    if i == 0 then Extent(0.0, CollapsedHeight)
    else
      var prev := FolderSpan(n, path, expanded, i - 1);
      var c := FL.Folders(n.children)[i - 1];
      FL.FolderIn(n.children, i - 1);
      var cd := Dims(c, FL.ChildPath(path, c.name), expanded);
      Extent(prev.width + cd.width + FolderGap, FL.Max(prev.height, cd.height))
  }

  /** The recursion with its `forEach` over the child folders. */
  method CalculateTreeDimensions(n: PA.Node, path: string, expanded: set<string>) returns (d: Extent)
    ensures d == Dims(n, path, expanded)
    decreases n
  {
    var nodeId := FL.CreateNodeId(path);
    if nodeId !in expanded || !n.Folder? {
      return Extent(CollapsedWidth, CollapsedHeight);
    }
    var folders := FL.Folders(n.children);
    var files := FL.Files(n.children);
    var totalWidth := 0.0;
    var maxHeight := CollapsedHeight;
    for i := 0 to |folders|
      invariant Extent(totalWidth, maxHeight) == FolderSpan(n, path, expanded, i)
    {
      var child := folders[i];
      FL.FolderIn(n.children, i);
      var childDim := CalculateTreeDimensions(child, FL.ChildPath(path, child.name), expanded);
      totalWidth := totalWidth + childDim.width + FolderGap;
      maxHeight := FL.Max(maxHeight, childDim.height);
    }
    if |files| > 0 {
      totalWidth := totalWidth + (|files| as real) * FileSlot;
    }
    d := Extent(FL.Max(totalWidth, CollapsedWidth), maxHeight + LevelHeight);
  }

  /** The running totals cover every child folder counted so far. */
  lemma {:induction false} FolderSpanCovers(n: PA.Node, path: string, expanded: set<string>, i: nat, j: nat)
    requires n.Folder? && j < i <= |FL.Folders(n.children)|
    ensures var c := FL.Folders(n.children)[j];
      var cd := Dims(c, FL.ChildPath(path, c.name), expanded);
      FolderSpan(n, path, expanded, i).width >= cd.width + FolderGap
      && FolderSpan(n, path, expanded, i).height >= cd.height
    decreases i
  {
    var folders := FL.Folders(n.children);
    var prev := FolderSpan(n, path, expanded, i - 1);
    var last := folders[i - 1];
    var ld := Dims(last, FL.ChildPath(path, last.name), expanded);
    assert FolderSpan(n, path, expanded, i) == Extent(prev.width + ld.width + FolderGap, FL.Max(prev.height, ld.height));
    if j < i - 1 {
      FolderSpanCovers(n, path, expanded, i - 1, j);
    }
  }

  /**
    An expanded folder is at least 300 wide and 400 high, at least 50 wider
    and 280 higher than each child folder, and 240 wider per file.
   */
  lemma ExpandedDims(n: PA.Node, path: string, expanded: set<string>)
    requires n.Folder? && FL.CreateNodeId(path) in expanded
    ensures var d := Dims(n, path, expanded);
      d.width >= CollapsedWidth && d.height >= CollapsedHeight + LevelHeight
      && d.width >= (|FL.Files(n.children)| as real) * FileSlot
      && forall j :: 0 <= j < |FL.Folders(n.children)| ==>
           var c := FL.Folders(n.children)[j];
           var cd := Dims(c, FL.ChildPath(path, c.name), expanded);
           d.width >= cd.width + FolderGap && d.height >= cd.height + LevelHeight
  {
    forall j | 0 <= j < |FL.Folders(n.children)|
      ensures var c := FL.Folders(n.children)[j];
        var cd := Dims(c, FL.ChildPath(path, c.name), expanded);
        Dims(n, path, expanded).width >= cd.width + FolderGap && Dims(n, path, expanded).height >= cd.height + LevelHeight
    {
      FolderSpanCovers(n, path, expanded, |FL.Folders(n.children)|, j);
    }
  }

  /** A collapsed node, or any file, takes one 300 by 120 slot. */
  lemma CollapsedDims(n: PA.Node, path: string, expanded: set<string>)
    requires FL.CreateNodeId(path) !in expanded || n.File?
    ensures Dims(n, path, expanded) == Extent(300.0, 120.0)
  {
  }

  // ---------------------------------------------------------------------------
  // The tree layout
  // ---------------------------------------------------------------------------

  /** A node card; the callbacks it carries are left out. */
  datatype Card = Card(id: string, position: Position, data: FL.NodeData)

  datatype Edge = Edge(id: string, source: string, target: string, stroke: string, strokeWidth: real,
                       dashArray: Option<string>, edgeLabel: Option<string>)

  /** The nodes and edges pushed so far. */
  datatype Out = Out(nodes: seq<Card>, edges: seq<Edge>)

  /** The output together with the running `childX`. */
  datatype Cursor = Cursor(out: Out, x: real)

  function FolderCard(n: PA.Node, nodeId: string, position: Position, expanded: set<string>): Card
    requires n.Folder?
  {
    Card(nodeId, position,
         FL.FolderData(n.name, nodeId in expanded, n.isAppRouter, n.routing, n.routePath, n.specialFiles,
                       |FL.Files(n.children)|, |FL.Folders(n.children)|, nodeId))
  }

  function FolderEdge(parentId: string, nodeId: string, isAppRouter: bool): Edge {
    Edge("edge-" + parentId + "-" + nodeId, parentId, nodeId,
         if isAppRouter then "#3b82f6" else "#6b7280", if isAppRouter then 3.0 else 2.0, None, None)
  }

  /** The output once the node itself is pushed: a folder's card centred on `centerX`, with the edge from its parent. */
  function Placed(n: PA.Node, nodeId: string, parentId: Option<string>, centerX: real, topY: real,
                  expanded: set<string>, out: Out): Out
  {
    if n.Folder? then
      Out(out.nodes + [FolderCard(n, nodeId, Position(centerX - FolderHalfWidth, topY), expanded)],
          out.edges + (if parentId.Some? then [FolderEdge(parentId.value, nodeId, n.isAppRouter)] else []))
    else out
  }

  /** `processNode`: the node, then its child folders' subtrees, then its files, one level lower. */
  function LayoutNode(n: PA.Node, path: string, parentId: Option<string>, centerX: real, topY: real,
                      expanded: set<string>, projectRoot: string, out: Out): Out
    decreases n, 2
  {
    var nodeId := FL.CreateNodeId(path);
    var placed := Placed(n, nodeId, parentId, centerX, topY, expanded, out);
    if !FL.ShowsChildren(n, nodeId, expanded) then placed
    else LayoutChildren(n, path, nodeId, centerX, topY, expanded, projectRoot, placed)
  }

  /** `totalChildWidth`: the child folders' widths plus gaps, then 240 per file. */
  function ChildWidth(n: PA.Node, path: string, expanded: set<string>): real
    requires n.Folder?
  {
    FolderSpan(n, path, expanded, |FL.Folders(n.children)|).width + (|FL.Files(n.children)| as real) * FileSlot
  }

  /** The children start at the left edge of their total width centred under the parent. */
  function LayoutChildren(n: PA.Node, path: string, nodeId: string, centerX: real, topY: real,
                          expanded: set<string>, projectRoot: string, placed: Out): Out
    requires n.Folder?
    decreases n, 1, |FL.Folders(n.children)| + 1
  {
    var files := FL.Files(n.children);
    var childY := topY + LevelHeight;
    var afterFolders := LayoutFolders(n, path, nodeId, childY, Cursor(placed, centerX - ChildWidth(n, path, expanded) / 2.0),
                                      expanded, projectRoot, |FL.Folders(n.children)|);
    LayoutFiles(files, nodeId, childY, projectRoot, afterFolders, |files|).out
  }

  /** The first `i` child folders, each centred in its own width right of the previous one. */
  function LayoutFolders(n: PA.Node, path: string, nodeId: string, childY: real, start: Cursor,
                         expanded: set<string>, projectRoot: string, i: nat): Cursor
    requires n.Folder? && i <= |FL.Folders(n.children)|
    decreases n, 1, i
  {
    if i == 0 then start
    else FolderStep(n, path, nodeId, childY, expanded, projectRoot, i - 1, LayoutFolders(n, path, nodeId, childY, start, expanded, projectRoot, i - 1))
  }

  /** Child folder `i`: its subtree centred in its width, then the cursor moves past it and a 50 gap. */
  function FolderStep(n: PA.Node, path: string, nodeId: string, childY: real, expanded: set<string>, projectRoot: string,
                      i: nat, prev: Cursor): Cursor
    requires n.Folder? && i < |FL.Folders(n.children)|
    decreases n, 1, i
  {
    var c := FL.Folders(n.children)[i];
    FL.FolderIn(n.children, i);
    var childPath := FL.ChildPath(path, c.name);
    var dim := Dims(c, childPath, expanded);
    Cursor(LayoutNode(c, childPath, Some(nodeId), prev.x + dim.width / 2.0, childY, expanded, projectRoot, prev.out),
           prev.x + dim.width + FolderGap)
  }

  function FileCard(file: PA.Node, fileNodeId: string, position: Position, projectRoot: string): Card {
    Card(fileNodeId, position,
         FL.FileData(file.name, file.isAppRouter, if file.File? then file.fileAnalysis else None,
                     file.fullPath, projectRoot, fileNodeId))
  }

  function FileEdge(nodeId: string, fileNodeId: string, isAppRouter: bool): Edge {
    Edge("edge-" + nodeId + "-" + fileNodeId, nodeId, fileNodeId,
         if isAppRouter then "#10b981" else "#6b7280", if isAppRouter then 2.5 else 1.5, None, None)
  }

  /** File `index`: its card 10 right of the running `childX` (`fileX - 110` with `fileX = childX + 120`). */
  function FileStep(file: PA.Node, index: nat, nodeId: string, childY: real, projectRoot: string, cur: Cursor): Cursor {
    var fileNodeId := FL.FileNodeId(nodeId, index);
    var fileX := cur.x + 120.0;
    Cursor(Out(cur.out.nodes + [FileCard(file, fileNodeId, Position(fileX - 110.0, childY), projectRoot)],
               cur.out.edges + [FileEdge(nodeId, fileNodeId, file.isAppRouter)]),
           cur.x + FileSlot)
  }

  /** The first `i` files. */
  function LayoutFiles(files: seq<PA.Node>, nodeId: string, childY: real, projectRoot: string, start: Cursor, i: nat): Cursor
    requires i <= |files|
  {
    if i == 0 then start else FileStep(files[i - 1], i - 1, nodeId, childY, projectRoot, LayoutFiles(files, nodeId, childY, projectRoot, start, i - 1))
  }

  /**
    `buildTreeLayout`: the root centred on x = 0 with its top at y = 100. The
    project root is `rootData.projectRoot || ""`, the project path the
    analysis stores on the structure's root, or "" when there is none.
   */
  function TreeLayout(root: PA.Node, expanded: set<string>, projectRoot: string): Out {
    LayoutNode(root, "root", None, 0.0, RootTopY, expanded, projectRoot, Out([], []))
  }

  /** `processNode`, pushing into the shared node and edge lists. */
  method ProcessNode(n: PA.Node, path: string, parentId: Option<string>, centerX: real, topY: real,
                     expanded: set<string>, projectRoot: string, nodes0: seq<Card>, edges0: seq<Edge>)
    returns (nodes: seq<Card>, edges: seq<Edge>)
    ensures Out(nodes, edges) == LayoutNode(n, path, parentId, centerX, topY, expanded, projectRoot, Out(nodes0, edges0))
    decreases n, 2
  {
    var nodeId := FL.CreateNodeId(path);
    var isExpanded := nodeId in expanded;
    var childFolders := if n.Folder? then FL.Folders(n.children) else [];
    var childFiles := if n.Folder? then FL.Files(n.children) else [];
    nodes, edges := nodes0, edges0;
    if n.Folder? {
      nodes := nodes + [FolderCard(n, nodeId, Position(centerX - FolderHalfWidth, topY), expanded)];
      if parentId.Some? {
        edges := edges + [FolderEdge(parentId.value, nodeId, n.isAppRouter)];
      }
    }
    assert Out(nodes, edges) == Placed(n, nodeId, parentId, centerX, topY, expanded, Out(nodes0, edges0));
    if isExpanded && (|childFolders| > 0 || |childFiles| > 0) {
      nodes, edges := ProcessChildren(n, path, nodeId, centerX, topY, expanded, projectRoot, nodes, edges);
    }
  }

  /** The part of `processNode` that lays out an expanded folder's children one level lower. */
  method ProcessChildren(n: PA.Node, path: string, nodeId: string, centerX: real, topY: real,
                         expanded: set<string>, projectRoot: string, nodes0: seq<Card>, edges0: seq<Edge>)
    returns (nodes: seq<Card>, edges: seq<Edge>)
    requires n.Folder?
    ensures Out(nodes, edges) == LayoutChildren(n, path, nodeId, centerX, topY, expanded, projectRoot, Out(nodes0, edges0))
    decreases n, 1
  {
    nodes, edges := nodes0, edges0;
    var childFiles := FL.Files(n.children);
    var childY := topY + LevelHeight;
    var totalChildWidth := TotalChildWidth(n, path, expanded);
    var childX := centerX - totalChildWidth / 2.0;
    ghost var x0 := childX;
    nodes, edges, childX := ProcessChildFolders(n, path, nodeId, childY, expanded, projectRoot, nodes, edges, childX);
    ghost var afterFolders := Cursor(Out(nodes, edges), childX);
    nodes, edges, childX := ProcessFiles(childFiles, nodeId, childY, projectRoot, nodes, edges, childX);
    ChildrenUnfold(n, path, nodeId, centerX, topY, expanded, projectRoot, Out(nodes0, edges0), totalChildWidth,
                   childY, x0, afterFolders, Cursor(Out(nodes, edges), childX));
  }

  lemma ChildrenUnfold(n: PA.Node, path: string, nodeId: string, centerX: real, topY: real, expanded: set<string>, projectRoot: string,
                       placed: Out, total: real, childY: real, x0: real, afterFolders: Cursor, afterFiles: Cursor)
    requires n.Folder?
    requires total == ChildWidth(n, path, expanded)
    requires childY == topY + LevelHeight && x0 == centerX - total / 2.0
    requires afterFolders == LayoutFolders(n, path, nodeId, childY, Cursor(placed, x0), expanded, projectRoot, |FL.Folders(n.children)|)
    requires afterFiles == LayoutFiles(FL.Files(n.children), nodeId, childY, projectRoot, afterFolders, |FL.Files(n.children)|)
    ensures LayoutChildren(n, path, nodeId, centerX, topY, expanded, projectRoot, placed) == afterFiles.out
  {
  }

  /** The first `forEach` of the child branch: the child folders' widths plus gaps, then 240 per file. */
  method TotalChildWidth(n: PA.Node, path: string, expanded: set<string>) returns (total: real)
    requires n.Folder?
    ensures total == ChildWidth(n, path, expanded)
  {
    var childFolders := FL.Folders(n.children);
    total := 0.0;
    for i := 0 to |childFolders|
      invariant total == FolderSpan(n, path, expanded, i).width
    {
      var child := childFolders[i];
      var childDim := CalculateTreeDimensions(child, FL.ChildPath(path, child.name), expanded);
      total := total + childDim.width + FolderGap;
    }
    total := total + (|FL.Files(n.children)| as real) * FileSlot;
  }

  /** The `forEach` over the child folders: each subtree centred in its own width. */
  method ProcessChildFolders(n: PA.Node, path: string, nodeId: string, childY: real, expanded: set<string>, projectRoot: string,
                             nodes0: seq<Card>, edges0: seq<Edge>, x0: real)
    returns (nodes: seq<Card>, edges: seq<Edge>, childX: real)
    requires n.Folder?
    ensures Cursor(Out(nodes, edges), childX)
         == LayoutFolders(n, path, nodeId, childY, Cursor(Out(nodes0, edges0), x0), expanded, projectRoot, |FL.Folders(n.children)|)
    decreases n, 1, 0
  {
    nodes, edges, childX := nodes0, edges0, x0;
    var childFolders := FL.Folders(n.children);
    ghost var start := Cursor(Out(nodes, edges), childX);
    for i := 0 to |childFolders|
      invariant Cursor(Out(nodes, edges), childX) == LayoutFolders(n, path, nodeId, childY, start, expanded, projectRoot, i)
    {
      ghost var prev := Out(nodes, edges);
      ghost var prevX := childX;
      var child := childFolders[i];
      FL.FolderIn(n.children, i);
      var childPath := FL.ChildPath(path, child.name);
      var childDim := CalculateTreeDimensions(child, childPath, expanded);
      var childCenterX := childX + childDim.width / 2.0;
      nodes, edges := ProcessNode(child, childPath, Some(nodeId), childCenterX, childY, expanded, projectRoot, nodes, edges);
      childX := childX + childDim.width + FolderGap;
      FoldersStep(n, path, nodeId, childY, start, expanded, projectRoot, i, child, childPath, prev, prevX, childDim, childCenterX, Out(nodes, edges));
    }
  }

  /** The `forEach` over the files: one card and one edge per file, 240 apart. */
  method ProcessFiles(files: seq<PA.Node>, nodeId: string, childY: real, projectRoot: string,
                      nodes0: seq<Card>, edges0: seq<Edge>, x0: real)
    returns (nodes: seq<Card>, edges: seq<Edge>, childX: real)
    ensures Cursor(Out(nodes, edges), childX) == LayoutFiles(files, nodeId, childY, projectRoot, Cursor(Out(nodes0, edges0), x0), |files|)
  {
    nodes, edges, childX := nodes0, edges0, x0;
    ghost var start := Cursor(Out(nodes, edges), childX);
    for i := 0 to |files|
      invariant Cursor(Out(nodes, edges), childX) == LayoutFiles(files, nodeId, childY, projectRoot, start, i)
    {
      var file := files[i];
      var fileNodeId := FL.FileNodeId(nodeId, i);
      var fileX := childX + 120.0;
      nodes := nodes + [FileCard(file, fileNodeId, Position(fileX - 110.0, childY), projectRoot)];
      edges := edges + [FileEdge(nodeId, fileNodeId, file.isAppRouter)];
      childX := childX + FileSlot;
    }
  }

  lemma FoldersStep(n: PA.Node, path: string, nodeId: string, childY: real, start: Cursor, expanded: set<string>, projectRoot: string,
                    i: nat, c: PA.Node, childPath: string, prev: Out, prevX: real, dim: Extent, center: real, result: Out)
    requires n.Folder? && i < |FL.Folders(n.children)|
    requires c == FL.Folders(n.children)[i] && childPath == FL.ChildPath(path, c.name)
    requires LayoutFolders(n, path, nodeId, childY, start, expanded, projectRoot, i) == Cursor(prev, prevX)
    requires dim == Dims(c, childPath, expanded)
    requires center == prevX + dim.width / 2.0
    requires result == LayoutNode(c, childPath, Some(nodeId), center, childY, expanded, projectRoot, prev)
    ensures LayoutFolders(n, path, nodeId, childY, start, expanded, projectRoot, i + 1) == Cursor(result, prevX + dim.width + FolderGap)
  {
  }

  /** `buildTreeLayout` */
  method BuildTreeLayout(root: PA.Node, expanded: set<string>, projectRoot: string) returns (nodes: seq<Card>, edges: seq<Edge>)
    ensures Out(nodes, edges) == TreeLayout(root, expanded, projectRoot)
    ensures forall k :: 0 <= k < |nodes| && nodes[k].data.FileData? ==> nodes[k].data.projectRoot == projectRoot
  {
    nodes, edges := ProcessNode(root, "root", None, 0.0, RootTopY, expanded, projectRoot, [], []);
    TreeLayoutFilesCarryRoot(root, expanded, projectRoot);
  }

  // ---------------------------------------------------------------------------
  // Rows: every level sits 280 below its parent
  // ---------------------------------------------------------------------------

  /** `d` levels down. */
  function Row(d: nat): real { LevelHeight * (d as real) }

  ghost predicate OnRow(y: real, topY: real) {
    exists d: nat :: y == topY + Row(d)
  }

  /** `res` keeps `out` as a prefix and every card it adds sits on a row at or below `topY`. */
  ghost predicate Grows(out: Out, res: Out, topY: real, projectRoot: string) {
    |out.nodes| <= |res.nodes| && |out.edges| <= |res.edges|
    && res.nodes[..|out.nodes|] == out.nodes && res.edges[..|out.edges|] == out.edges
    && (forall k :: |out.nodes| <= k < |res.nodes| ==> OnRow(res.nodes[k].position.y, topY))
    && forall k :: |out.nodes| <= k < |res.nodes| ==> CarriesRoot(res.nodes[k], projectRoot)
  }

  /** A file card carries the project root it was laid out with; folder cards carry none. */
  predicate CarriesRoot(card: Card, projectRoot: string) {
    card.data.FileData? ==> card.data.projectRoot == projectRoot
  }

  lemma GrowsRefl(a: Out, t: real, projectRoot: string)
    ensures Grows(a, a, t, projectRoot)
  {
  }

  lemma GrowsTrans(a: Out, b: Out, c: Out, t: real, projectRoot: string)
    requires Grows(a, b, t, projectRoot) && Grows(b, c, t, projectRoot)
    ensures Grows(a, c, t, projectRoot)
  {
    assert c.nodes[..|a.nodes|] == c.nodes[..|b.nodes|][..|a.nodes|];
    assert c.edges[..|a.edges|] == c.edges[..|b.edges|][..|a.edges|];
    forall k | |a.nodes| <= k < |c.nodes| ensures OnRow(c.nodes[k].position.y, t) && CarriesRoot(c.nodes[k], projectRoot) {
      if k < |b.nodes| {
        assert c.nodes[k] == b.nodes[k];
      }
    }
  }

  /** Rows below `t + 280` are rows below `t`. */
  lemma GrowsDown(a: Out, b: Out, t: real, projectRoot: string)
    requires Grows(a, b, t + LevelHeight, projectRoot)
    ensures Grows(a, b, t, projectRoot)
  {
    forall k | |a.nodes| <= k < |b.nodes| ensures OnRow(b.nodes[k].position.y, t) {
      var d: nat :| b.nodes[k].position.y == t + LevelHeight + Row(d);
      assert Row(d + 1) == LevelHeight + Row(d);
    }
  }

  lemma PushGrows(out: Out, card: Card, edges: seq<Edge>, t: real, projectRoot: string)
    requires card.position.y == t && CarriesRoot(card, projectRoot)
    ensures Grows(out, Out(out.nodes + [card], out.edges + edges), t, projectRoot)
  {
    var res := Out(out.nodes + [card], out.edges + edges);
    assert res.nodes[..|out.nodes|] == out.nodes;
    assert res.edges[..|out.edges|] == out.edges;
    forall k | |out.nodes| <= k < |res.nodes| ensures OnRow(res.nodes[k].position.y, t) {
      assert res.nodes[k] == card;
      assert card.position.y == t + Row(0);
    }
  }

  lemma {:induction false} NodeGrows(n: PA.Node, path: string, parentId: Option<string>, centerX: real, topY: real,
                                    expanded: set<string>, projectRoot: string, out: Out, res: Out)
    requires res == LayoutNode(n, path, parentId, centerX, topY, expanded, projectRoot, out)
    ensures Grows(out, res, topY, projectRoot)
    decreases n, 2
  {
    var nodeId := FL.CreateNodeId(path);
    var placed := Placed(n, nodeId, parentId, centerX, topY, expanded, out);
    if n.Folder? {
      PushGrows(out, FolderCard(n, nodeId, Position(centerX - FolderHalfWidth, topY), expanded),
                if parentId.Some? then [FolderEdge(parentId.value, nodeId, n.isAppRouter)] else [], topY, projectRoot);
    } else {
      GrowsRefl(out, topY, projectRoot);
    }
    if FL.ShowsChildren(n, nodeId, expanded) {
      ChildrenGrows(n, path, nodeId, centerX, topY, expanded, projectRoot, placed, res);
      GrowsDown(placed, res, topY, projectRoot);
      GrowsTrans(out, placed, res, topY, projectRoot);
    }
  }

  lemma {:induction false} ChildrenGrows(n: PA.Node, path: string, nodeId: string, centerX: real, topY: real,
                                        expanded: set<string>, projectRoot: string, placed: Out, res: Out)
    requires n.Folder?
    requires res == LayoutChildren(n, path, nodeId, centerX, topY, expanded, projectRoot, placed)
    ensures Grows(placed, res, topY + LevelHeight, projectRoot)
    decreases n, 1, |FL.Folders(n.children)| + 1
  {
    var files := FL.Files(n.children);
    var childY := topY + LevelHeight;
    var start := Cursor(placed, centerX - ChildWidth(n, path, expanded) / 2.0);
    var f := |FL.Folders(n.children)|;
    var first := LayoutFolders(n, path, nodeId, childY, start, expanded, projectRoot, 0);
    var afterFolders := LayoutFolders(n, path, nodeId, childY, start, expanded, projectRoot, f);
    FoldersGrow(n, path, nodeId, childY, start, expanded, projectRoot, 0, f, first, afterFolders);
    var firstFile := LayoutFiles(files, nodeId, childY, projectRoot, afterFolders, 0);
    var afterFiles := LayoutFiles(files, nodeId, childY, projectRoot, afterFolders, |files|);
    FilesGrow(files, nodeId, childY, projectRoot, afterFolders, 0, |files|, firstFile, afterFiles);
    assert res == afterFiles.out;
    GrowsTrans(placed, afterFolders.out, afterFiles.out, childY, projectRoot);
  }

  /** The folders from the `i`-th to the `j`-th. */
  lemma {:induction false} FoldersGrow(n: PA.Node, path: string, nodeId: string, childY: real, start: Cursor,
                                      expanded: set<string>, projectRoot: string, i: nat, j: nat, a: Cursor, b: Cursor)
    requires n.Folder? && i <= j <= |FL.Folders(n.children)|
    requires a == LayoutFolders(n, path, nodeId, childY, start, expanded, projectRoot, i)
    requires b == LayoutFolders(n, path, nodeId, childY, start, expanded, projectRoot, j)
    ensures Grows(a.out, b.out, childY, projectRoot)
    decreases n, 1, j
  {
    if i == j {
      GrowsRefl(a.out, childY, projectRoot);
    } else {
      var mid := LayoutFolders(n, path, nodeId, childY, start, expanded, projectRoot, j - 1);
      FoldersGrow(n, path, nodeId, childY, start, expanded, projectRoot, i, j - 1, a, mid);
      FolderGrowStep(n, path, nodeId, childY, start, expanded, projectRoot, j - 1, mid, b);
      GrowsTrans(a.out, mid.out, b.out, childY, projectRoot);
    }
  }

  lemma {:induction false} FolderGrowStep(n: PA.Node, path: string, nodeId: string, childY: real, start: Cursor,
                                         expanded: set<string>, projectRoot: string, i: nat, prev: Cursor, cur: Cursor)
    requires n.Folder? && i < |FL.Folders(n.children)|
    requires prev == LayoutFolders(n, path, nodeId, childY, start, expanded, projectRoot, i)
    requires cur == LayoutFolders(n, path, nodeId, childY, start, expanded, projectRoot, i + 1)
    ensures Grows(prev.out, cur.out, childY, projectRoot)
    decreases n, 1, i
  {
    var c := FL.Folders(n.children)[i];
    FL.FolderIn(n.children, i);
    var childPath := FL.ChildPath(path, c.name);
    var dim := Dims(c, childPath, expanded);
    var center := prev.x + dim.width / 2.0;
    var result := LayoutNode(c, childPath, Some(nodeId), center, childY, expanded, projectRoot, prev.out);
    NodeGrows(c, childPath, Some(nodeId), center, childY, expanded, projectRoot, prev.out, result);
    FoldersStep(n, path, nodeId, childY, start, expanded, projectRoot, i, c, childPath, prev.out, prev.x, dim, center, result);
    assert cur.out == result;
  }

  /** The files from the `i`-th to the `j`-th. */
  lemma {:induction false} FilesGrow(files: seq<PA.Node>, nodeId: string, childY: real, projectRoot: string, start: Cursor,
                                    i: nat, j: nat, a: Cursor, b: Cursor)
    requires i <= j <= |files|
    requires a == LayoutFiles(files, nodeId, childY, projectRoot, start, i)
    requires b == LayoutFiles(files, nodeId, childY, projectRoot, start, j)
    ensures Grows(a.out, b.out, childY, projectRoot)
    decreases j
  {
    if i == j {
      GrowsRefl(a.out, childY, projectRoot);
    } else {
      var mid := LayoutFiles(files, nodeId, childY, projectRoot, start, j - 1);
      FilesGrow(files, nodeId, childY, projectRoot, start, i, j - 1, a, mid);
      var fileNodeId := FL.FileNodeId(nodeId, j - 1);
      PushGrows(mid.out, FileCard(files[j - 1], fileNodeId, Position(mid.x + 120.0 - 110.0, childY), projectRoot),
                [FileEdge(nodeId, fileNodeId, files[j - 1].isAppRouter)], childY, projectRoot);
      assert b == FileStep(files[j - 1], j - 1, nodeId, childY, projectRoot, mid);
      GrowsTrans(a.out, mid.out, b.out, childY, projectRoot);
    }
  }

  /** A folder's own card comes first in its layout: centred on `centerX`, its top at `topY`. */
  lemma NodeFirst(n: PA.Node, path: string, parentId: Option<string>, centerX: real, topY: real,
                  expanded: set<string>, projectRoot: string, out: Out, res: Out)
    requires n.Folder?
    requires res == LayoutNode(n, path, parentId, centerX, topY, expanded, projectRoot, out)
    ensures |out.nodes| < |res.nodes|
    ensures res.nodes[|out.nodes|] == FolderCard(n, FL.CreateNodeId(path), Position(centerX - FolderHalfWidth, topY), expanded)
  {
    var nodeId := FL.CreateNodeId(path);
    var placed := Placed(n, nodeId, parentId, centerX, topY, expanded, out);
    assert placed.nodes[|out.nodes|] == FolderCard(n, nodeId, Position(centerX - FolderHalfWidth, topY), expanded);
    if FL.ShowsChildren(n, nodeId, expanded) {
      ChildrenGrows(n, path, nodeId, centerX, topY, expanded, projectRoot, placed, res);
      assert res.nodes[..|placed.nodes|][|out.nodes|] == res.nodes[|out.nodes|];
    }
  }

  /**
    The root folder's card is first, centred on x = 0 with its top at
    y = 100, and every card lies 100 + 280 * d down for some depth d.
   */
  lemma TreeLayoutRows(root: PA.Node, expanded: set<string>, projectRoot: string)
    ensures var o := TreeLayout(root, expanded, projectRoot);
      (forall k :: 0 <= k < |o.nodes| ==> OnRow(o.nodes[k].position.y, 100.0))
      && (root.Folder? ==> |o.nodes| > 0 && o.nodes[0].position == Position(-140.0, 100.0))
  {
    var o := TreeLayout(root, expanded, projectRoot);
    NodeGrows(root, "root", None, 0.0, RootTopY, expanded, projectRoot, Out([], []), o);
    if root.Folder? {
      NodeFirst(root, "root", None, 0.0, RootTopY, expanded, projectRoot, Out([], []), o);
    }
  }
  /**
    Every file card of the layout carries the project root it was given, the
    value the card hands on when it asks for its dependencies.
   */
  lemma TreeLayoutFilesCarryRoot(root: PA.Node, expanded: set<string>, projectRoot: string)
    ensures var o := TreeLayout(root, expanded, projectRoot);
      forall k :: 0 <= k < |o.nodes| && o.nodes[k].data.FileData? ==> o.nodes[k].data.projectRoot == projectRoot
  {
    var o := TreeLayout(root, expanded, projectRoot);
    NodeGrows(root, "root", None, 0.0, RootTopY, expanded, projectRoot, Out([], []), o);
    assert forall k :: 0 <= k < |o.nodes| ==> CarriesRoot(o.nodes[k], projectRoot);
  }


  // ---------------------------------------------------------------------------
  // Siblings: left to right, at least one file slot apart
  // ---------------------------------------------------------------------------

  /**
    The left edge of child `k` of `n` when the children start at `x0`: the
    child folders first, each centred in its own width, then the files.
   */
  function SiblingX(n: PA.Node, path: string, expanded: set<string>, x0: real, k: nat): real
    requires n.Folder? && k < |FL.Folders(n.children)| + |FL.Files(n.children)|
  {
    var f := |FL.Folders(n.children)|;
    if k < f then
      var c := FL.Folders(n.children)[k];
      FL.FolderIn(n.children, k);
      x0 + FolderSpan(n, path, expanded, k).width + Dims(c, FL.ChildPath(path, c.name), expanded).width / 2.0 - FolderHalfWidth
    else
      x0 + FolderSpan(n, path, expanded, f).width + ((k - f) as real) * FileSlot + 10.0
  }

  /** The id of child `k`: a folder's id comes from its path, a file's from its index. */
  function SiblingId(n: PA.Node, path: string, nodeId: string, k: nat): string
    requires n.Folder? && k < |FL.Folders(n.children)| + |FL.Files(n.children)|
  {
    var f := |FL.Folders(n.children)|;
    if k < f then FL.CreateNodeId(FL.ChildPath(path, FL.Folders(n.children)[k].name))
    else FL.FileNodeId(nodeId, k - f)
  }

  lemma SiblingStep(n: PA.Node, path: string, expanded: set<string>, x0: real, k: nat)
    requires n.Folder? && k + 1 < |FL.Folders(n.children)| + |FL.Files(n.children)|
    ensures SiblingX(n, path, expanded, x0, k) + FileSlot <= SiblingX(n, path, expanded, x0, k + 1)
  {
    var f := |FL.Folders(n.children)|;
    if k < f {
      var c := FL.Folders(n.children)[k];
      FL.FolderIn(n.children, k);
      var w := Dims(c, FL.ChildPath(path, c.name), expanded).width;
      assert FolderSpan(n, path, expanded, k + 1).width == FolderSpan(n, path, expanded, k).width + w + FolderGap;
    }
  }

  /** Later children lie further right, by at least 240 per step. */
  lemma {:induction false} SiblingsIncreasing(n: PA.Node, path: string, expanded: set<string>, x0: real, k: nat, m: nat)
    requires n.Folder? && k <= m < |FL.Folders(n.children)| + |FL.Files(n.children)|
    ensures SiblingX(n, path, expanded, x0, k) + ((m - k) as real) * FileSlot <= SiblingX(n, path, expanded, x0, m)
    decreases m
  {
    if k < m {
      SiblingsIncreasing(n, path, expanded, x0, k, m - 1);
      SiblingStep(n, path, expanded, x0, m - 1);
    }
  }

  /** After `i` child folders the cursor has moved by their widths and gaps. */
  lemma {:induction false} FoldersX(n: PA.Node, path: string, nodeId: string, childY: real, start: Cursor,
                                   expanded: set<string>, projectRoot: string, i: nat, cur: Cursor)
    requires n.Folder? && i <= |FL.Folders(n.children)|
    requires cur == LayoutFolders(n, path, nodeId, childY, start, expanded, projectRoot, i)
    ensures cur.x == start.x + FolderSpan(n, path, expanded, i).width
    decreases i
  {
    if i > 0 {
      var prev := LayoutFolders(n, path, nodeId, childY, start, expanded, projectRoot, i - 1);
      FoldersX(n, path, nodeId, childY, start, expanded, projectRoot, i - 1, prev);
      assert cur == FolderStep(n, path, nodeId, childY, expanded, projectRoot, i - 1, prev);
    }
  }

  /** After `i` files the cursor has moved by `i` slots and `i` cards were pushed. */
  lemma {:induction false} FilesX(files: seq<PA.Node>, nodeId: string, childY: real, projectRoot: string, start: Cursor, i: nat, cur: Cursor)
    requires i <= |files|
    requires cur == LayoutFiles(files, nodeId, childY, projectRoot, start, i)
    ensures cur.x == start.x + (i as real) * FileSlot
    ensures |cur.out.nodes| == |start.out.nodes| + i
    decreases i
  {
    if i > 0 {
      var prev := LayoutFiles(files, nodeId, childY, projectRoot, start, i - 1);
      FilesX(files, nodeId, childY, projectRoot, start, i - 1, prev);
      assert cur == FileStep(files[i - 1], i - 1, nodeId, childY, projectRoot, prev);
    }
  }

  /** `b` starts with `a`'s cards. */
  ghost predicate Prefix(a: Out, b: Out) {
    |a.nodes| <= |b.nodes| && b.nodes[..|a.nodes|] == a.nodes
  }

  lemma FoldersPrefix(n: PA.Node, path: string, nodeId: string, childY: real, start: Cursor,
                      expanded: set<string>, projectRoot: string, i: nat, j: nat, a: Cursor, b: Cursor)
    requires n.Folder? && i <= j <= |FL.Folders(n.children)|
    requires a == LayoutFolders(n, path, nodeId, childY, start, expanded, projectRoot, i)
    requires b == LayoutFolders(n, path, nodeId, childY, start, expanded, projectRoot, j)
    ensures Prefix(a.out, b.out)
  {
    FoldersGrow(n, path, nodeId, childY, start, expanded, projectRoot, i, j, a, b);
  }

  lemma FilesPrefix(files: seq<PA.Node>, nodeId: string, childY: real, projectRoot: string, start: Cursor,
                    i: nat, j: nat, a: Cursor, b: Cursor)
    requires i <= j <= |files|
    requires a == LayoutFiles(files, nodeId, childY, projectRoot, start, i)
    requires b == LayoutFiles(files, nodeId, childY, projectRoot, start, j)
    ensures Prefix(a.out, b.out)
  {
    FilesGrow(files, nodeId, childY, projectRoot, start, i, j, a, b);
  }

  /** A card of `a` that `c` keeps. */
  lemma Kept(a: Out, b: Out, c: Out, idx: nat)
    requires Prefix(a, b) && Prefix(b, c) && idx < |a.nodes|
    ensures idx < |c.nodes| && c.nodes[idx] == a.nodes[idx]
  {
    assert c.nodes[..|b.nodes|][idx] == c.nodes[idx];
    assert b.nodes[..|a.nodes|][idx] == b.nodes[idx];
  }

  /** Child folder `k`'s card is pushed first in its subtree and kept by the later folders. */
  lemma FolderCardKept(n: PA.Node, path: string, nodeId: string, childY: real, start: Cursor, expanded: set<string>, projectRoot: string,
                       k: nat, c: PA.Node, childPath: string, afterFolders: Cursor) returns (idx: nat)
    requires n.Folder? && k < |FL.Folders(n.children)|
    requires c == FL.Folders(n.children)[k] && childPath == FL.ChildPath(path, c.name)
    requires afterFolders == LayoutFolders(n, path, nodeId, childY, start, expanded, projectRoot, |FL.Folders(n.children)|)
    ensures c.Folder?
    ensures |start.out.nodes| <= idx < |afterFolders.out.nodes|
    ensures afterFolders.out.nodes[idx]
         == FolderCard(c, FL.CreateNodeId(childPath),
                       Position(start.x + FolderSpan(n, path, expanded, k).width
                                + Dims(c, childPath, expanded).width / 2.0 - FolderHalfWidth, childY), expanded)
  {
    FL.FolderIn(n.children, k);
    var first := LayoutFolders(n, path, nodeId, childY, start, expanded, projectRoot, 0);
    var before := LayoutFolders(n, path, nodeId, childY, start, expanded, projectRoot, k);
    var after := LayoutFolders(n, path, nodeId, childY, start, expanded, projectRoot, k + 1);
    FoldersX(n, path, nodeId, childY, start, expanded, projectRoot, k, before);
    var dim := Dims(c, childPath, expanded);
    var center := before.x + dim.width / 2.0;
    var sub := LayoutNode(c, childPath, Some(nodeId), center, childY, expanded, projectRoot, before.out);
    FoldersStep(n, path, nodeId, childY, start, expanded, projectRoot, k, c, childPath, before.out, before.x, dim, center, sub);
    NodeFirst(c, childPath, Some(nodeId), center, childY, expanded, projectRoot, before.out, sub);
    idx := |before.out.nodes|;
    FoldersPrefix(n, path, nodeId, childY, start, expanded, projectRoot, 0, k, first, before);
    FoldersPrefix(n, path, nodeId, childY, start, expanded, projectRoot, k + 1, |FL.Folders(n.children)|, after, afterFolders);
    assert Prefix(afterFolders.out, afterFolders.out);
    Kept(after.out, afterFolders.out, afterFolders.out, idx);
    assert afterFolders.out.nodes[idx] == sub.nodes[idx];
    assert center == start.x + FolderSpan(n, path, expanded, k).width + dim.width / 2.0;
  }

  /** File `j`'s card goes `j` slots right of the cursor it starts from, 10 in. */
  lemma FileCardKept(files: seq<PA.Node>, nodeId: string, childY: real, projectRoot: string, start: Cursor, j: nat, afterFiles: Cursor, idx: nat)
    requires j < |files| && idx == |start.out.nodes| + j
    requires afterFiles == LayoutFiles(files, nodeId, childY, projectRoot, start, |files|)
    ensures idx < |afterFiles.out.nodes|
    ensures afterFiles.out.nodes[idx]
         == FileCard(files[j], FL.FileNodeId(nodeId, j), Position(start.x + (j as real) * FileSlot + 10.0, childY), projectRoot)
  {
    var before := LayoutFiles(files, nodeId, childY, projectRoot, start, j);
    var after := LayoutFiles(files, nodeId, childY, projectRoot, start, j + 1);
    FilesX(files, nodeId, childY, projectRoot, start, j, before);
    assert after == FileStep(files[j], j, nodeId, childY, projectRoot, before);
    FilesPrefix(files, nodeId, childY, projectRoot, start, j + 1, |files|, after, afterFiles);
    assert Prefix(after.out, after.out);
    Kept(after.out, after.out, afterFiles.out, |before.out.nodes|);
  }

  /** Child folder `k`'s card, kept by the files after it. */
  lemma FolderChildAt(n: PA.Node, path: string, nodeId: string, childY: real, start: Cursor, expanded: set<string>, projectRoot: string,
                      k: nat, afterFolders: Cursor, afterFiles: Cursor) returns (idx: nat)
    requires n.Folder? && k < |FL.Folders(n.children)|
    requires afterFolders == LayoutFolders(n, path, nodeId, childY, start, expanded, projectRoot, |FL.Folders(n.children)|)
    requires afterFiles == LayoutFiles(FL.Files(n.children), nodeId, childY, projectRoot, afterFolders, |FL.Files(n.children)|)
    ensures |start.out.nodes| <= idx < |afterFiles.out.nodes|
    ensures afterFiles.out.nodes[idx].id == SiblingId(n, path, nodeId, k)
    ensures afterFiles.out.nodes[idx].position == Position(SiblingX(n, path, expanded, start.x, k), childY)
  {
    var files := FL.Files(n.children);
    var c := FL.Folders(n.children)[k];
    var childPath := FL.ChildPath(path, c.name);
    idx := FolderCardKept(n, path, nodeId, childY, start, expanded, projectRoot, k, c, childPath, afterFolders);
    var firstFile := LayoutFiles(files, nodeId, childY, projectRoot, afterFolders, 0);
    FilesPrefix(files, nodeId, childY, projectRoot, afterFolders, 0, |files|, firstFile, afterFiles);
    assert Prefix(afterFolders.out, afterFolders.out);
    Kept(afterFolders.out, afterFolders.out, afterFiles.out, idx);
  }

  /** The card of child `k`, a file: the cursor after the child folders has moved by their span. */
  lemma FileChildAt(n: PA.Node, path: string, nodeId: string, childY: real, x0: real, expanded: set<string>, projectRoot: string,
                    k: nat, afterFolders: Cursor, afterFiles: Cursor) returns (idx: nat)
    requires n.Folder? && |FL.Folders(n.children)| <= k < |FL.Folders(n.children)| + |FL.Files(n.children)|
    requires afterFolders.x == x0 + FolderSpan(n, path, expanded, |FL.Folders(n.children)|).width
    requires afterFiles == LayoutFiles(FL.Files(n.children), nodeId, childY, projectRoot, afterFolders, |FL.Files(n.children)|)
    ensures |afterFolders.out.nodes| <= idx < |afterFiles.out.nodes|
    ensures afterFiles.out.nodes[idx].id == SiblingId(n, path, nodeId, k)
    ensures afterFiles.out.nodes[idx].position == Position(SiblingX(n, path, expanded, x0, k), childY)
  {
    var j := k - |FL.Folders(n.children)|;
    idx := |afterFolders.out.nodes| + j;
    FileCardKept(FL.Files(n.children), nodeId, childY, projectRoot, afterFolders, j, afterFiles, idx);
    FileSibling(n, path, nodeId, expanded, x0, k);
  }

  lemma FileSibling(n: PA.Node, path: string, nodeId: string, expanded: set<string>, x0: real, k: nat)
    requires n.Folder? && |FL.Folders(n.children)| <= k < |FL.Folders(n.children)| + |FL.Files(n.children)|
    ensures SiblingId(n, path, nodeId, k) == FL.FileNodeId(nodeId, k - |FL.Folders(n.children)|)
    ensures SiblingX(n, path, expanded, x0, k)
         == x0 + FolderSpan(n, path, expanded, |FL.Folders(n.children)|).width
            + ((k - |FL.Folders(n.children)|) as real) * FileSlot + 10.0
  {
  }

  /**
    Child `k` of an expanded folder gets a card with its id, one level below
    the folder, at its place in the left-to-right order when the children are
    centred under the folder.
   */
  lemma ChildCardAt(n: PA.Node, path: string, nodeId: string, centerX: real, topY: real, expanded: set<string>, projectRoot: string,
                    placed: Out, res: Out, k: nat) returns (idx: nat)
    requires n.Folder? && k < |FL.Folders(n.children)| + |FL.Files(n.children)|
    requires res == LayoutChildren(n, path, nodeId, centerX, topY, expanded, projectRoot, placed)
    ensures |placed.nodes| <= idx < |res.nodes|
    ensures res.nodes[idx].id == SiblingId(n, path, nodeId, k)
    ensures res.nodes[idx].position
         == Position(SiblingX(n, path, expanded, centerX - ChildWidth(n, path, expanded) / 2.0, k), topY + LevelHeight)
  {
    var total := ChildWidth(n, path, expanded);
    var x0 := centerX - total / 2.0;
    var childY := topY + LevelHeight;
    var start := Cursor(placed, x0);
    var f := |FL.Folders(n.children)|;
    var files := FL.Files(n.children);
    var afterFolders := LayoutFolders(n, path, nodeId, childY, start, expanded, projectRoot, f);
    var afterFiles := LayoutFiles(files, nodeId, childY, projectRoot, afterFolders, |files|);
    ChildrenUnfold(n, path, nodeId, centerX, topY, expanded, projectRoot, placed, total, childY, x0, afterFolders, afterFiles);
    assert res == afterFiles.out;
    if k < f {
      idx := FolderChildAt(n, path, nodeId, childY, start, expanded, projectRoot, k, afterFolders, afterFiles);
    } else {
      var first := LayoutFolders(n, path, nodeId, childY, start, expanded, projectRoot, 0);
      FoldersX(n, path, nodeId, childY, start, expanded, projectRoot, f, afterFolders);
      FoldersPrefix(n, path, nodeId, childY, start, expanded, projectRoot, 0, f, first, afterFolders);
      idx := FileChildAt(n, path, nodeId, childY, x0, expanded, projectRoot, k, afterFolders, afterFiles);
    }
  }

  // ---------------------------------------------------------------------------
  // The first layer expanded on load
  // ---------------------------------------------------------------------------

  /**
    The set the view starts from, as written: "root" and "root-" + name for
    each top-level folder, once the structure has children; a structure
    without children leaves the set it had, `prev`, untouched.
   */
  function FirstLayerAsWritten(root: PA.Node, prev: set<string>): set<string> {
    if root.Folder? then {"root"} + set c | c in root.children && c.Folder? :: "root-" + c.name else prev
  }

  /**
    A top-level folder whose name is not made of letters and digits does not
    start expanded: its card's id is "root-a-b" while the set holds "root-a.b".
   */
  lemma FirstLayerAsWrittenMisses()
    ensures var child := PA.Folder("a.b", [], false, None, None, None, "", "");
      var root := PA.Folder("root", [child], false, None, None, None, "", "");
      FL.CreateNodeId(FL.ChildPath("root", child.name)) !in FirstLayerAsWritten(root, {})
  {
    var child := PA.Folder("a.b", [], false, None, None, None, "", "");
    var root := PA.Folder("root", [child], false, None, None, None, "", "");
    DottedChildId();
    var id := FL.CreateNodeId(FL.ChildPath("root", child.name));
    assert FirstLayerAsWritten(root, {}) == {"root", "root-" + child.name};
    assert |id| != |"root"|;
    assert id[6] != ("root-" + child.name)[6];
  }

  lemma DottedChildId()
    ensures FL.CreateNodeId(FL.ChildPath("root", "a.b")) == "root-a-b"
  {
    DottedPath();
    DottedMapped();
    assert FL.NoDoubleDash("root-a-b");
    FL.CollapseFixed("root-a-b");
  }

  lemma DottedPath()
    ensures FL.ChildPath("root", "a.b") == "root-a.b"
  {
  }

  lemma DottedMapped()
    ensures MapChars("root-a.b", IsAlnum, '-') == "root-a-b"
  {
    var mapped := MapChars("root-a.b", IsAlnum, '-');
    assert mapped[6] == '-';
    assert forall i :: 0 <= i < 8 && i != 6 ==> mapped[i] == "root-a.b"[i];
  }

  /**
    The first layer keyed the way the layout looks folders up. For a
    structure without children it is empty: the set the effect would
    otherwise leave as it was is not part of this function.
   */
  function FirstLayer(root: PA.Node): (r: set<string>)
    ensures root.Folder? ==> FL.CreateNodeId("root") in r
  {
    if root.Folder? then
      assert FL.CreateNodeId("root") == "root" by { FL.CreateNodeIdFixed("root"); }
      {"root"} + set c | c in root.children && c.Folder? :: FL.CreateNodeId(FL.ChildPath("root", c.name))
    else {}
  }

  /**
    The corrected first layer is exactly the root and its folder children,
    by the ids the layout gives their cards: the id of sibling `k`, for each
    child folder `k` of the root.
   */
  lemma FirstLayerExpandsTopFolders(root: PA.Node, id: string)
    requires root.Folder?
    ensures id in FirstLayer(root)
        <==> id == FL.CreateNodeId("root")
             || exists c :: c in root.children && c.Folder? && id == FL.CreateNodeId(FL.ChildPath("root", c.name))
    ensures id in FirstLayer(root)
        <==> id == FL.CreateNodeId("root")
             || exists k :: 0 <= k < |FL.Folders(root.children)| && id == SiblingId(root, "root", FL.CreateNodeId("root"), k)
  {
    FL.CreateNodeIdFixed("root");
    var nodeId := FL.CreateNodeId("root");
    var fs := FL.Folders(root.children);
    if id in FirstLayer(root) && id != nodeId {
      var c :| c in root.children && c.Folder? && id == FL.CreateNodeId(FL.ChildPath("root", c.name));
      FL.FolderAt(root.children, c);
      var k :| 0 <= k < |fs| && fs[k] == c;
      assert id == SiblingId(root, "root", nodeId, k);
    }
    forall k | 0 <= k < |fs| ensures SiblingId(root, "root", nodeId, k) in FirstLayer(root) {
      FL.FolderIn(root.children, k);
    }
  }

  /**
    Laid out from the corrected first layer, the root shows its children and
    the card of every top-level folder carries an id in that set: the id its
    own layout looks up, so that folder shows its children too.
   */
  lemma FirstLayerCardsOpen(root: PA.Node, projectRoot: string, k: nat)
    requires root.Folder? && k < |FL.Folders(root.children)|
    ensures var o := TreeLayout(root, FirstLayer(root), projectRoot);
      exists idx :: 0 <= idx < |o.nodes|
        && o.nodes[idx].id == FL.CreateNodeId(FL.ChildPath("root", FL.Folders(root.children)[k].name))
        && o.nodes[idx].id in FirstLayer(root)
  {
    var expanded := FirstLayer(root);
    var nodeId := FL.CreateNodeId("root");
    var o := TreeLayout(root, expanded, projectRoot);
    var placed := Placed(root, nodeId, None, 0.0, RootTopY, expanded, Out([], []));
    assert FL.ShowsChildren(root, nodeId, expanded);
    var idx := ChildCardAt(root, "root", nodeId, 0.0, RootTopY, expanded, projectRoot, placed, o, k);
    FirstLayerExpandsTopFolders(root, o.nodes[idx].id);
    assert 0 <= k < |FL.Folders(root.children)| && o.nodes[idx].id == SiblingId(root, "root", nodeId, k);
  }
}
