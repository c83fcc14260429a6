/**
  The live flow layout of the project explorer: node ids derived from tree
  paths, padded-box collision tests, the bounded search for a free
  position, subtree extents, the left-to-right layout of the structure
  tree, and the dependency nodes placed beside an analysed file.

  Coordinates are exact reals: every constant is a multiple of ten and
  the only division is halving. The structure tree is the one the project
  analyser builds.
 */
module FlowLayout {
  import opened Strings
  import opened Wrappers
  import opened Geometry
  import PA = ProjectAnalyzer
  import DA = DependencyAnalyzer

  // ---------------------------------------------------------------------------
  // Spacing configuration
  // ---------------------------------------------------------------------------

  const ParentChildDistance: real := 600.0
  const FileHorizontalOffset: real := 0.0
  const DependencyHorizontalDistance: real := 450.0
  const FolderToFolderSpacing: real := 50.0
  const FileToFileSpacing: real := 100.0
  const DependencyVerticalSpacing: real := 100.0
  const TreeWidthPadding: real := 450.0
  const VerticalIncrement: real := 150.0
  const HorizontalIncrement: real := 120.0
  const CollisionPadding: real := 20.0
  const MaxAttempts: nat := 20
  const FolderWidth: real := 260.0
  const FolderHeight: real := 80.0
  const FileWidth: real := 260.0
  const FileHeight: real := 30.0
  const DependencyWidth: real := 280.0
  const DependencyHeight: real := 40.0
  const MinimumTreeHeight: real := 300.0
  const RootStartX: real := 100.0

  function Max(a: real, b: real): real { if a >= b then a else b }

  // ---------------------------------------------------------------------------
  // Node ids
  // ---------------------------------------------------------------------------

  predicate IdChar(c: char) { IsAlnum(c) || c == '-' }

  predicate NoDoubleDash(s: string) {
    forall i :: 0 <= i < |s| - 1 ==> !(s[i] == '-' && s[i + 1] == '-')
  }

  /** `.replace(/-+/g, "-")`: every run of dashes becomes a single dash. */
  function CollapseDashes(s: string): (r: string)
    ensures |r| <= |s|
    ensures s != [] ==> r != [] && r[0] == s[0]
  {
    if |s| < 2 then s
    else if s[0] == '-' && s[1] == '-' then CollapseDashes(s[1..])
    else [s[0]] + CollapseDashes(s[1..])
  }

  /** The collapse only keeps characters of its input. */
  lemma {:induction false} CollapseChars(s: string)
    ensures forall i :: 0 <= i < |CollapseDashes(s)| ==> CollapseDashes(s)[i] in s
    decreases |s|
  {
    if |s| >= 2 {
      CollapseChars(s[1..]);
      var t := CollapseDashes(s[1..]);
      forall i | 0 <= i < |t| ensures t[i] in s {
        assert t[i] in s[1..];
      }
    }
  }

  lemma {:induction false} CollapseNoDoubleDash(s: string)
    ensures NoDoubleDash(CollapseDashes(s))
    decreases |s|
  {
    if |s| >= 2 {
      CollapseNoDoubleDash(s[1..]);
      if !(s[0] == '-' && s[1] == '-') {
        var t := CollapseDashes(s[1..]);
        var r := [s[0]] + t;
        assert CollapseDashes(s) == r;
        forall i | 0 <= i < |r| - 1 ensures !(r[i] == '-' && r[i + 1] == '-') {
          if i > 0 {
            assert r[i] == t[i - 1] && r[i + 1] == t[i];
          } else {
            assert r[1] == t[0] == s[1];
          }
        }
      }
    }
  }

  /** A string without a double dash is left alone by the collapse. */
  lemma {:induction false} CollapseFixed(s: string)
    requires NoDoubleDash(s)
    ensures CollapseDashes(s) == s
    decreases |s|
  {
    if |s| >= 2 {
      assert !(s[0] == '-' && s[1] == '-');
      assert NoDoubleDash(s[1..]) by {
        forall i | 0 <= i < |s[1..]| - 1 ensures !(s[1..][i] == '-' && s[1..][i + 1] == '-') {
          assert s[1..][i] == s[i + 1] && s[1..][i + 1] == s[i + 2];
        }
      }
      CollapseFixed(s[1..]);
      assert s == [s[0]] + s[1..];
    }
  }

  /** `createNodeId`: every character outside [a-zA-Z0-9] becomes a dash, then dash runs shrink to one. */
  function CreateNodeId(path: string): (id: string)
    ensures |id| <= |path|
  {
    CollapseDashes(MapChars(path, IsAlnum, '-'))
  }

  /** An id is made of letters, digits and single dashes. */
  lemma CreateNodeIdShape(path: string)
    ensures var id := CreateNodeId(path);
      (forall i :: 0 <= i < |id| ==> IdChar(id[i])) && NoDoubleDash(id)
  {
    var mapped := MapChars(path, IsAlnum, '-');
    CollapseNoDoubleDash(mapped);
    CollapseChars(mapped);
    var id := CollapseDashes(mapped);
    forall i | 0 <= i < |id| ensures IdChar(id[i]) {
      var j :| 0 <= j < |mapped| && mapped[j] == id[i];
    }
  }

  /** The ids are exactly the strings over [a-zA-Z0-9-] without a double dash. */
  lemma CreateNodeIdFixed(p: string)
    ensures CreateNodeId(p) == p <==> (forall i :: 0 <= i < |p| ==> IdChar(p[i])) && NoDoubleDash(p)
  {
    CreateNodeIdShape(p);
    if (forall i :: 0 <= i < |p| ==> IdChar(p[i])) && NoDoubleDash(p) {
      var mapped := MapChars(p, IsAlnum, '-');
      assert mapped == p;
      CollapseFixed(p);
    }
  }

  /** Applying `createNodeId` twice changes nothing. */
  lemma CreateNodeIdIdempotent(p: string)
    ensures CreateNodeId(CreateNodeId(p)) == CreateNodeId(p)
  {
    CreateNodeIdShape(p);
    CreateNodeIdFixed(CreateNodeId(p));
  }

  /** Different paths can share an id. */
  lemma CreateNodeIdNotInjective()
    ensures CreateNodeId("a.b") == CreateNodeId("a/b") == "a-b"
  {
    assert MapChars("a.b", IsAlnum, '-') == "a-b";
    assert MapChars("a/b", IsAlnum, '-') == "a-b";
    CollapseFixed("a-b");
  }

  // ---------------------------------------------------------------------------
  // Nodes, edges and collisions
  // ---------------------------------------------------------------------------

  /** What a node card shows; the callbacks it carries are left out. */
  datatype NodeData =
    | FolderData(name: string, isExpanded: bool, isAppRouter: bool, routing: Option<PA.RoutingAnalysis>,
                 routePath: Option<string>, specialFiles: Option<PA.SpecialFlags>,
                 fileCount: nat, folderCount: nat, nodeId: string)
    | FileData(name: string, isAppRouter: bool, fileAnalysis: Option<PA.FileAnalysis>,
               filePath: string, projectRoot: string, nodeId: string)
    | DependencyData(name: string, info: DA.DependencyInfo)

  /** A flow node; a width or height of 0 stands for a missing one. */
  datatype FlowNode = FlowNode(id: string, position: Position, width: real, height: real, data: NodeData)

  datatype EdgeKind = FolderEdge | FileEdge | DependencyLocal | DependencyExternal

  datatype FlowEdge = FlowEdge(
    id: string, source: string, target: string, dataKey: string,
    stroke: string, strokeWidth: real, dashArray: Option<string>)

  /** `createDataEdge` with the `name` data key. */
  function CreateDataEdge(source: string, target: string, isAppRouter: bool, kind: EdgeKind): (e: FlowEdge)
    ensures e.source == source && e.target == target && e.id == "edge-" + source + "-" + target
    ensures e.dashArray.Some? <==> kind == DependencyExternal
  {
    var style: (string, real) :=
      match kind
      case FolderEdge => (if isAppRouter then "#3b82f6" else "#6b7280", if isAppRouter then 3.0 else 2.0)
      case FileEdge => (if isAppRouter then "#10b981" else "#6b7280", if isAppRouter then 2.5 else 1.5)
      case DependencyLocal => ("#10b981", 2.5)
      case DependencyExternal => ("#6366f1", 1.5);
    FlowEdge("edge-" + source + "-" + target, source, target, "name", style.0, style.1,
             if kind == DependencyExternal then Some("5,5") else None)
  }

  datatype Box = Box(position: Position, width: real, height: real)

  datatype Bounds = Bounds(x: real, y: real, width: real, height: real)

  /** `size || default`: a missing size takes the folder default. */
  function SizeOr(v: real, default: real): real { if v == 0.0 then default else v }

  /** The box grown by `pad` on every side. */
  function Padded(b: Box, pad: real): Bounds {
    Bounds(b.position.x - pad, b.position.y - pad,
           SizeOr(b.width, FolderWidth) + pad * 2.0, SizeOr(b.height, FolderHeight) + pad * 2.0)
  }

  /** Neither box lies wholly to one side of the other; touching counts. */
  predicate Intersect(a: Bounds, b: Bounds) {
    !(a.x > b.x + b.width || a.x + a.width < b.x || a.y > b.y + b.height || a.y + a.height < b.y)
  }

  predicate Inside(x: real, y: real, b: Bounds) {
    b.x <= x <= b.x + b.width && b.y <= y <= b.y + b.height
  }

  function BoxOf(n: FlowNode): Box { Box(n.position, n.width, n.height) }

  /** `checkTightCollision`: `existing.some(...)` over the padded boxes; an empty list never collides. */
  predicate CheckTightCollision(proposed: Box, existing: seq<FlowNode>, pad: real)
    decreases |existing|
  {
    |existing| != 0
    && (Intersect(Padded(proposed, pad), Padded(BoxOf(existing[0]), pad)) || CheckTightCollision(proposed, existing[1..], pad))
  }

  /** The padded boxes of `proposed` and existing node `i` intersect. */
  predicate Hits(proposed: Box, existing: seq<FlowNode>, pad: real, i: nat)
    requires i < |existing|
  {
    Intersect(Padded(proposed, pad), Padded(BoxOf(existing[i]), pad))
  }

  /** The scan finds a collision exactly when some existing node is hit. */
  lemma {:induction false} CollisionSome(proposed: Box, existing: seq<FlowNode>, pad: real)
    ensures CheckTightCollision(proposed, existing, pad) <==> exists i :: 0 <= i < |existing| && Hits(proposed, existing, pad, i)
    decreases |existing|
  {
    if |existing| != 0 {
      CollisionSome(proposed, existing[1..], pad);
      if CheckTightCollision(proposed, existing, pad) {
        if !Hits(proposed, existing, pad, 0) {
          var i :| 0 <= i < |existing[1..]| && Hits(proposed, existing[1..], pad, i);
          assert Hits(proposed, existing, pad, i + 1);
        }
      } else {
        forall i | 0 <= i < |existing| ensures !Hits(proposed, existing, pad, i) {
          if i > 0 {
            assert !Hits(proposed, existing[1..], pad, i - 1);
          }
        }
      }
    }
  }

  /** Two boxes of non-negative size intersect exactly when they share a point. */
  lemma IntersectIffCommonPoint(a: Bounds, b: Bounds)
    requires a.width >= 0.0 && a.height >= 0.0 && b.width >= 0.0 && b.height >= 0.0
    ensures Intersect(a, b) <==> exists x, y :: Inside(x, y, a) && Inside(x, y, b)
  {
    if Intersect(a, b) {
      var x := Max(a.x, b.x);
      var y := Max(a.y, b.y);
      assert Inside(x, y, a) && Inside(x, y, b);
    }
  }

  /** The collision test does not depend on which box is proposed. */
  lemma IntersectSymmetric(a: Bounds, b: Bounds)
    ensures Intersect(a, b) <==> Intersect(b, a)
  {
  }

  /**
    A proposed box with non-negative padded size collides exactly when it
    shares a point with one of the padded existing boxes; an empty list
    never collides.
   */
  lemma CollisionMeaning(proposed: Box, existing: seq<FlowNode>, pad: real)
    requires pad >= 0.0 && proposed.width >= 0.0 && proposed.height >= 0.0
    requires forall i :: 0 <= i < |existing| ==> existing[i].width >= 0.0 && existing[i].height >= 0.0
    ensures CheckTightCollision(proposed, existing, pad) <==>
      exists i, x, y :: 0 <= i < |existing| && Inside(x, y, Padded(proposed, pad)) && Inside(x, y, Padded(BoxOf(existing[i]), pad))
  {
    CollisionSome(proposed, existing, pad);
    if CheckTightCollision(proposed, existing, pad) {
      var i :| 0 <= i < |existing| && Hits(proposed, existing, pad, i);
      IntersectIffCommonPoint(Padded(proposed, pad), Padded(BoxOf(existing[i]), pad));
    }
    if exists i, x, y :: 0 <= i < |existing| && Inside(x, y, Padded(proposed, pad)) && Inside(x, y, Padded(BoxOf(existing[i]), pad)) {
      var i, x, y :| 0 <= i < |existing| && Inside(x, y, Padded(proposed, pad)) && Inside(x, y, Padded(BoxOf(existing[i]), pad));
      IntersectIffCommonPoint(Padded(proposed, pad), Padded(BoxOf(existing[i]), pad));
    }
  }

  // ---------------------------------------------------------------------------
  // The search for a free position
  // ---------------------------------------------------------------------------

  /** The adjustment after a failed attempt: five steps down, five sideways, then diagonal half steps. */
  function Move(p: Position, attempt: nat): Position {
    if attempt < 5 then Position(p.x, p.y + VerticalIncrement)
    else if attempt < 10 then Position(p.x + (if attempt % 2 == 0 then HorizontalIncrement else -HorizontalIncrement), p.y)
    else Position(p.x + (if attempt % 2 == 0 then 1.0 else -1.0) * HorizontalIncrement * 0.5, p.y + VerticalIncrement * 0.5)
  }

  /** The position tried at attempt `k`. */
  function Probe(initial: Position, k: nat): Position
    decreases k
  {
    if k == 0 then initial else Move(Probe(initial, k - 1), k - 1)
  }

  /** What is returned once every attempt collided; it is not tested. */
  function Fallback(initial: Position): Position {
    Position(initial.x + (if MaxAttempts % 2 == 0 then HorizontalIncrement else -HorizontalIncrement),
             initial.y + (MaxAttempts as real) * VerticalIncrement)
  }

  predicate Free(p: Position, width: real, height: real, existing: seq<FlowNode>) {
    !CheckTightCollision(Box(p, width, height), existing, CollisionPadding)
  }

  /** The attempts from `k` on, `position` being the one tried at attempt `k`. */
  function SearchFrom(initial: Position, position: Position, existing: seq<FlowNode>, width: real, height: real, k: nat): Position
    requires k <= MaxAttempts
    decreases MaxAttempts - k
  {
    if k == MaxAttempts then Fallback(initial)
    else if Free(position, width, height, existing) then position
    else SearchFrom(initial, Move(position, k), existing, width, height, k + 1)
  }

  /** A way to place a node of the given size near a position, clear of the nodes so far. */
  type Placer = (Position, seq<FlowNode>, real, real) -> Position

  /** `findCompactPosition` */
  function CompactPosition(initial: Position, existing: seq<FlowNode>, width: real, height: real): Position {
    SearchFrom(initial, initial, existing, width, height, 0)
  }

  /** Probe `a` is the first free one. */
  predicate FirstFree(initial: Position, existing: seq<FlowNode>, width: real, height: real, a: nat) {
    a < MaxAttempts && Free(Probe(initial, a), width, height, existing)
    && forall j :: 0 <= j < a ==> !Free(Probe(initial, j), width, height, existing)
  }

  /** Every one of the 20 probes collides. */
  predicate AllCollide(initial: Position, existing: seq<FlowNode>, width: real, height: real) {
    forall j :: 0 <= j < MaxAttempts ==> !Free(Probe(initial, j), width, height, existing)
  }

  lemma {:induction false} SearchFromCases(initial: Position, existing: seq<FlowNode>, width: real, height: real, k: nat)
    requires k <= MaxAttempts
    requires forall j :: 0 <= j < k ==> !Free(Probe(initial, j), width, height, existing)
    ensures var r := SearchFrom(initial, Probe(initial, k), existing, width, height, k);
      (exists a :: FirstFree(initial, existing, width, height, a) && r == Probe(initial, a))
      || (AllCollide(initial, existing, width, height) && r == Fallback(initial))
    decreases MaxAttempts - k
  {
    if k < MaxAttempts {
      if Free(Probe(initial, k), width, height, existing) {
        assert FirstFree(initial, existing, width, height, k);
      } else {
        SearchFromCases(initial, existing, width, height, k + 1);
      }
    }
  }

  /**
    The position found is the first of at most 20 probes that collides with
    no existing node, or, when all 20 collide, the unchecked fallback.
   */
  lemma CompactPositionCases(initial: Position, existing: seq<FlowNode>, width: real, height: real)
    ensures var r := CompactPosition(initial, existing, width, height);
      (exists a :: FirstFree(initial, existing, width, height, a) && r == Probe(initial, a))
      || (AllCollide(initial, existing, width, height) && r == Fallback(initial))
  {
    SearchFromCases(initial, existing, width, height, 0);
  }

  /** With nothing placed yet, the initial position is kept. */
  lemma CompactPositionEmpty(initial: Position, width: real, height: real)
    ensures CompactPosition(initial, [], width, height) == initial
  {
  }

  /** The loop of `findCompactPosition`, with its early return. */
  method FindCompactPosition(initial: Position, existing: seq<FlowNode>, width: real, height: real)
    returns (position: Position)
    ensures position == CompactPosition(initial, existing, width, height)
  {
    position := initial;
    var attempts: nat := 0;
    while attempts < MaxAttempts
      invariant attempts <= MaxAttempts
      invariant position == Probe(initial, attempts)
      invariant SearchFrom(initial, position, existing, width, height, attempts) == CompactPosition(initial, existing, width, height)
      decreases MaxAttempts - attempts
    {
      if !CheckTightCollision(Box(position, width, height), existing, CollisionPadding) {
        return;
      }
      position := Move(position, attempts);
      attempts := attempts + 1;
    }
    position := Position(initial.x + (if attempts % 2 == 0 then HorizontalIncrement else -HorizontalIncrement),
                         initial.y + (attempts as real) * VerticalIncrement);
  }

  /** Each probe stays within 120 per attempt sideways and up to 150 per attempt below the start. */
  lemma {:induction false} ProbeBounds(initial: Position, k: nat)
    ensures initial.x - HorizontalIncrement * (k as real) <= Probe(initial, k).x <= initial.x + HorizontalIncrement * (k as real)
    ensures initial.y <= Probe(initial, k).y <= initial.y + VerticalIncrement * (k as real)
    decreases k
  {
    if k > 0 {
      ProbeBounds(initial, k - 1);
    }
  }

  /** A node large enough to cover every probe around `initial`. */
  function Wall(initial: Position): FlowNode {
    FlowNode("wall", Position(initial.x - 5000.0, initial.y - 5000.0), 20000.0, 20000.0,
             FolderData("wall", false, false, None, None, None, 0, 0, "wall"))
  }

  lemma WallBlocks(initial: Position, p: Position, width: real, height: real)
    requires initial.x - 2400.0 <= p.x <= initial.x + 2400.0 && initial.y <= p.y <= initial.y + 3000.0
    requires width >= 0.0 && height >= 0.0
    ensures !Free(p, width, height, [Wall(initial)])
  {
    assert Intersect(Padded(Box(p, width, height), CollisionPadding), Padded(BoxOf([Wall(initial)][0]), CollisionPadding));
  }

  /** The fallback is never tested: next to a large enough node it is returned although it collides. */
  lemma FallbackUnchecked(initial: Position, width: real, height: real)
    requires width >= 0.0 && height >= 0.0
    ensures CompactPosition(initial, [Wall(initial)], width, height) == Fallback(initial)
    ensures !Free(Fallback(initial), width, height, [Wall(initial)])
  {
    forall j | 0 <= j < MaxAttempts ensures !Free(Probe(initial, j), width, height, [Wall(initial)]) {
      ProbeBounds(initial, j);
      WallBlocks(initial, Probe(initial, j), width, height);
    }
    CompactPositionCases(initial, [Wall(initial)], width, height);
    WallBlocks(initial, Fallback(initial), width, height);
  }

  // ---------------------------------------------------------------------------
  // Subtree extents
  // ---------------------------------------------------------------------------

  datatype Dimensions = Dimensions(height: real, width: real)

  /** `children.filter(c => c.type === "folder")` */
  function Folders(cs: seq<PA.Node>): (r: seq<PA.Node>)
    ensures |r| <= |cs|
  {
    if cs == [] then [] else (if cs[0].Folder? then [cs[0]] else []) + Folders(cs[1..])
  }

  /** The child folders are folders among the children. */
  lemma {:induction false} FolderIn(cs: seq<PA.Node>, i: nat)
    requires i < |Folders(cs)|
    ensures Folders(cs)[i] in cs && Folders(cs)[i].Folder?
    decreases |cs|
  {
    if cs[0].Folder? {
      if i > 0 {
        FolderIn(cs[1..], i - 1);
      }
    } else {
      FolderIn(cs[1..], i);
    }
  }

  /** Every folder among the children is one of the child folders. */
  lemma {:induction false} FolderAt(cs: seq<PA.Node>, c: PA.Node)
    requires c in cs && c.Folder?
    ensures exists i :: 0 <= i < |Folders(cs)| && Folders(cs)[i] == c
    decreases |cs|
  {
    if cs[0] == c {
      assert Folders(cs)[0] == c;
    } else {
      assert c in cs[1..];
      FolderAt(cs[1..], c);
      var i :| 0 <= i < |Folders(cs[1..])| && Folders(cs[1..])[i] == c;
      if cs[0].Folder? {
        assert Folders(cs)[i + 1] == c;
      } else {
        assert Folders(cs)[i] == c;
      }
    }
  }

  /** `children.filter(c => c.type === "file")` */
  function Files(cs: seq<PA.Node>): (r: seq<PA.Node>)
    ensures |r| <= |cs|
  {
    if cs == [] then [] else (if cs[0].File? then [cs[0]] else []) + Files(cs[1..])
  }

  /** A folder's children; a file has none. */
  function ChildrenOf(n: PA.Node): seq<PA.Node> {
    if n.Folder? then n.children else []
  }

  /** The layout path of a child: `${path}-${name}`. */
  function ChildPath(path: string, name: string): string {
    path + "-" + name
  }

  /** `calculateTreeDimensions` */
  function TreeDimensions(n: PA.Node, path: string, expanded: set<string>): (d: Dimensions)
    ensures d.height >= FolderHeight && d.width >= FolderWidth
    decreases n, 1
  {
    if CreateNodeId(path) !in expanded || !n.Folder? then Dimensions(FolderHeight, FolderWidth)
    else
      var folders := Folders(n.children);
      var files := Files(n.children);
      var sum := FolderExtent(n, path, expanded, |folders|);
      var total := sum.height + (if |files| > 0 then (|files| as real) * FileToFileSpacing else 0.0);
      Dimensions(Max(total, MinimumTreeHeight), sum.width + TreeWidthPadding)
  }

  /** The running totals over the first `i` child folders: heights plus spacing, and the widest. */
  function FolderExtent(n: PA.Node, path: string, expanded: set<string>, i: nat): (d: Dimensions)
    requires n.Folder? && i <= |Folders(n.children)|
    ensures d.height >= 0.0 && d.width >= FolderWidth
    decreases n, 0, i
  {
    if i == 0 then Dimensions(0.0, FolderWidth)
    else
      var prev := FolderExtent(n, path, expanded, i - 1);
      var c := Folders(n.children)[i - 1];
      FolderIn(n.children, i - 1);
      var cd := TreeDimensions(c, ChildPath(path, c.name), expanded);
      Dimensions(prev.height + cd.height + FolderToFolderSpacing, Max(prev.width, cd.width))
  }

  /** The recursion with its `forEach` over the child folders. */
  method CalculateTreeDimensions(n: PA.Node, path: string, expanded: set<string>) returns (d: Dimensions)
    ensures d == TreeDimensions(n, path, expanded)
    decreases n
  {
    var nodeId := CreateNodeId(path);
    if nodeId !in expanded || !n.Folder? {
      return Dimensions(FolderHeight, FolderWidth);
    }
    var folders := Folders(n.children);
    var files := Files(n.children);
    var totalHeight := 0.0;
    var maxWidth := FolderWidth;
    for i := 0 to |folders|
      invariant Dimensions(totalHeight, maxWidth) == FolderExtent(n, path, expanded, i)
    {
      var child := folders[i];
      FolderIn(n.children, i);
      var childDim := CalculateTreeDimensions(child, ChildPath(path, child.name), expanded);
      totalHeight := totalHeight + childDim.height + FolderToFolderSpacing;
      maxWidth := Max(maxWidth, childDim.width);
    }
    if |files| > 0 {
      totalHeight := totalHeight + (|files| as real) * FileToFileSpacing;
    }
    d := Dimensions(Max(totalHeight, MinimumTreeHeight), maxWidth + TreeWidthPadding);
  }

  /** The running totals cover every child folder counted so far. */
  lemma {:induction false} FolderExtentCovers(n: PA.Node, path: string, expanded: set<string>, i: nat, j: nat)
    requires n.Folder? && j < i <= |Folders(n.children)|
    ensures var c := Folders(n.children)[j];
      var cd := TreeDimensions(c, ChildPath(path, c.name), expanded);
      FolderExtent(n, path, expanded, i).width >= cd.width
      && FolderExtent(n, path, expanded, i).height >= cd.height + FolderToFolderSpacing
    decreases i
  {
    var folders := Folders(n.children);
    var prev := FolderExtent(n, path, expanded, i - 1);
    var last := folders[i - 1];
    var ld := TreeDimensions(last, ChildPath(path, last.name), expanded);
    assert FolderExtent(n, path, expanded, i) == Dimensions(prev.height + ld.height + FolderToFolderSpacing, Max(prev.width, ld.width));
    if j < i - 1 {
      FolderExtentCovers(n, path, expanded, i - 1, j);
    }
  }

  /**
    An expanded folder is at least 300 high and 710 wide, and at least 450
    wider and 50 higher than each of its child folders.
   */
  lemma ExpandedDimensions(n: PA.Node, path: string, expanded: set<string>, j: nat)
    requires n.Folder? && CreateNodeId(path) in expanded && j < |Folders(n.children)|
    ensures var d := TreeDimensions(n, path, expanded);
      var c := Folders(n.children)[j];
      var cd := TreeDimensions(c, ChildPath(path, c.name), expanded);
      d.height >= MinimumTreeHeight && d.width >= FolderWidth + TreeWidthPadding
      && d.width >= cd.width + TreeWidthPadding && d.height >= cd.height + FolderToFolderSpacing
  {
    FolderExtentCovers(n, path, expanded, |Folders(n.children)|, j);
  }

  // ---------------------------------------------------------------------------
  // The tree layout
  // ---------------------------------------------------------------------------

  /** The nodes and edges pushed so far. */
  datatype Out = Out(nodes: seq<FlowNode>, edges: seq<FlowEdge>)

  /** The output together with the running `childY`. */
  datatype Cursor = Cursor(out: Out, y: real)

  function FolderNode(n: PA.Node, nodeId: string, position: Position, expanded: set<string>): FlowNode
    requires n.Folder?
  {
    FlowNode(nodeId, position, FolderWidth, FolderHeight,
             FolderData(n.name, nodeId in expanded, n.isAppRouter, n.routing, n.routePath, n.specialFiles,
                        |Files(n.children)|, |Folders(n.children)|, nodeId))
  }

  /** The folder's own node, placed clear of the nodes so far, and the edge from its parent. */
  function PlaceFolder(n: PA.Node, nodeId: string, parentId: Option<string>, leftX: real, centerY: real,
                       expanded: set<string>, place: Placer, out: Out): Out
    requires n.Folder?
  {
    var safe := place(Position(leftX, centerY - FolderHeight / 2.0), out.nodes, FolderWidth, FolderHeight);
    Out(out.nodes + [FolderNode(n, nodeId, safe, expanded)],
        out.edges + (if parentId.Some? then [CreateDataEdge(parentId.value, nodeId, n.isAppRouter, FolderEdge)] else []))
  }

  /** An expanded folder with at least one folder or file child shows its children. */
  predicate ShowsChildren(n: PA.Node, nodeId: string, expanded: set<string>) {
    nodeId in expanded && n.Folder? && (|Folders(n.children)| > 0 || |Files(n.children)| > 0)
  }

  /** The output once the node itself is pushed: folders get a node, files none. */
  function Placed(n: PA.Node, nodeId: string, parentId: Option<string>, leftX: real, centerY: real,
                  expanded: set<string>, place: Placer, out: Out): Out
  {
    if n.Folder? then PlaceFolder(n, nodeId, parentId, leftX, centerY, expanded, place, out) else out
  }

  /** `processNode`: the node, then its child folders' subtrees, then its files. */
  function LayoutNode(n: PA.Node, path: string, parentId: Option<string>, leftX: real, centerY: real,
                      expanded: set<string>, projectRoot: string, place: Placer, out: Out): Out
    decreases n, 2
  {
    var nodeId := CreateNodeId(path);
    var placed := Placed(n, nodeId, parentId, leftX, centerY, expanded, place, out);
    if !ShowsChildren(n, nodeId, expanded) then placed
    else ChildrenLayout(n, path, nodeId, leftX, centerY, expanded, projectRoot, place, placed)
  }

  /** The sum of the child extents, centred on the parent's `centerY`, then the child folders and the files. */
  function ChildrenLayout(n: PA.Node, path: string, nodeId: string, leftX: real, centerY: real,
                          expanded: set<string>, projectRoot: string, place: Placer, placed: Out): Out
    requires n.Folder?
    decreases n, 1, |Folders(n.children)| + 1
  {
    var files := Files(n.children);
    var childX := leftX + ParentChildDistance;
    var afterFolders := LayoutFolders(n, path, nodeId, childX, Cursor(placed, centerY - ChildTotal(n, path, expanded) / 2.0),
                                      expanded, projectRoot, place, |Folders(n.children)|);
    LayoutFiles(files, nodeId, childX, place, projectRoot, afterFolders, |files|).out
  }

  /** `totalChildHeight`: the child folders' extents, then 100 per file. */
  function ChildTotal(n: PA.Node, path: string, expanded: set<string>): real
    requires n.Folder?
  {
    FolderExtent(n, path, expanded, |Folders(n.children)|).height + (|Files(n.children)| as real) * FileToFileSpacing
  }

  /** The first `i` child folders, each centred in its own extent below the previous one. */
  function LayoutFolders(n: PA.Node, path: string, nodeId: string, childX: real, start: Cursor,
                         expanded: set<string>, projectRoot: string, place: Placer, i: nat): Cursor
    requires n.Folder? && i <= |Folders(n.children)|
    decreases n, 1, i
  {
    if i == 0 then start
    else
      var prev := LayoutFolders(n, path, nodeId, childX, start, expanded, projectRoot, place, i - 1);
      var c := Folders(n.children)[i - 1];
      FolderIn(n.children, i - 1);
      var childPath := ChildPath(path, c.name);
      var dim := TreeDimensions(c, childPath, expanded);
      Cursor(LayoutNode(c, childPath, Some(nodeId), childX, prev.y + dim.height / 2.0, expanded, projectRoot, place, prev.out),
             prev.y + dim.height + FolderToFolderSpacing)
  }

  function FileNodeId(nodeId: string, index: nat): string {
    nodeId + "-file-" + NatToString(index)
  }

  function FileNode(file: PA.Node, fileNodeId: string, position: Position, projectRoot: string): FlowNode {
    FlowNode(fileNodeId, position, FileWidth, FileHeight,
             FileData(file.name, file.isAppRouter, if file.File? then file.fileAnalysis else None,
                      file.fullPath, projectRoot, fileNodeId))
  }

  /** File `index`: its node below the running `childY`, and the edge from the folder. */
  function FileStep(file: PA.Node, index: nat, nodeId: string, childX: real, place: Placer, projectRoot: string, cur: Cursor): Cursor {
    var fileNodeId := FileNodeId(nodeId, index);
    var fileY := cur.y + FileToFileSpacing / 2.0;
    var safe := place(Position(childX + FileHorizontalOffset, fileY - FileHeight / 2.0), cur.out.nodes, FileWidth, FileHeight);
    Cursor(Out(cur.out.nodes + [FileNode(file, fileNodeId, safe, projectRoot)],
               cur.out.edges + [CreateDataEdge(nodeId, fileNodeId, file.isAppRouter, FileEdge)]),
           cur.y + FileToFileSpacing)
  }

  /** The first `i` files. */
  function LayoutFiles(files: seq<PA.Node>, nodeId: string, childX: real, place: Placer, projectRoot: string, start: Cursor, i: nat): Cursor
    requires i <= |files|
  {
    if i == 0 then start else FileStep(files[i - 1], i - 1, nodeId, childX, place, projectRoot, LayoutFiles(files, nodeId, childX, place, projectRoot, start, i - 1))
  }

  /**
    `buildTreeLayout`: the layout from the root at x = 100, y = 0. The
    project root is `rootData.projectRoot || ""`, the project path the
    analysis stores on the structure's root, or "" when there is none.
   */
  function TreeLayout(root: PA.Node, expanded: set<string>, projectRoot: string): Out {
    LayoutNode(root, "root", None, RootStartX, 0.0, expanded, projectRoot, CompactPosition, Out([], []))
  }

  /** `processNode`, pushing into the shared node and edge lists. */
  method ProcessNode(n: PA.Node, path: string, parentId: Option<string>, leftX: real, centerY: real,
                     expanded: set<string>, projectRoot: string, nodes0: seq<FlowNode>, edges0: seq<FlowEdge>)
    returns (nodes: seq<FlowNode>, edges: seq<FlowEdge>)
    ensures Out(nodes, edges) == LayoutNode(n, path, parentId, leftX, centerY, expanded, projectRoot, CompactPosition, Out(nodes0, edges0))
    decreases n, 2
  {
    var nodeId := CreateNodeId(path);
    var isExpanded := nodeId in expanded;
    var childFolders := if n.Folder? then Folders(n.children) else [];
    var childFiles := if n.Folder? then Files(n.children) else [];
    nodes, edges := nodes0, edges0;
    if n.Folder? {
      var safe := FindCompactPosition(Position(leftX, centerY - FolderHeight / 2.0), nodes, FolderWidth, FolderHeight);
      nodes := nodes + [FolderNode(n, nodeId, safe, expanded)];
      if parentId.Some? {
        edges := edges + [CreateDataEdge(parentId.value, nodeId, n.isAppRouter, FolderEdge)];
      }
    }
    assert Out(nodes, edges) == Placed(n, nodeId, parentId, leftX, centerY, expanded, CompactPosition, Out(nodes0, edges0));
    if isExpanded && (|childFolders| > 0 || |childFiles| > 0) {
      nodes, edges := ProcessChildren(n, path, nodeId, leftX, centerY, expanded, projectRoot, nodes, edges);
    }
  }

  /** The part of `processNode` that lays out an expanded folder's children below it. */
  method ProcessChildren(n: PA.Node, path: string, nodeId: string, leftX: real, centerY: real,
                         expanded: set<string>, projectRoot: string, nodes0: seq<FlowNode>, edges0: seq<FlowEdge>)
    returns (nodes: seq<FlowNode>, edges: seq<FlowEdge>)
    requires n.Folder?
    ensures Out(nodes, edges) == ChildrenLayout(n, path, nodeId, leftX, centerY, expanded, projectRoot, CompactPosition, Out(nodes0, edges0))
    decreases n, 1
  {
    nodes, edges := nodes0, edges0;
    var childFolders := Folders(n.children);
    var childFiles := Files(n.children);
    var childX := leftX + ParentChildDistance;
    var totalChildHeight := TotalChildHeight(n, path, expanded);
    var childY := centerY - totalChildHeight / 2.0;
    ghost var y0 := childY;
    nodes, edges, childY := ProcessChildFolders(n, path, nodeId, childX, expanded, projectRoot, nodes, edges, childY);
    ghost var afterFolders := Cursor(Out(nodes, edges), childY);
    nodes, edges, childY := ProcessFiles(childFiles, nodeId, childX, projectRoot, nodes, edges, childY);
    ChildrenLayoutUnfold(n, path, nodeId, leftX, centerY, expanded, projectRoot, CompactPosition, Out(nodes0, edges0), totalChildHeight,
                         childX, y0, afterFolders, Cursor(Out(nodes, edges), childY));
  }

  lemma ChildrenLayoutUnfold(n: PA.Node, path: string, nodeId: string, leftX: real, centerY: real,
                             expanded: set<string>, projectRoot: string, place: Placer, placed: Out, total: real,
                             childX: real, y0: real, afterFolders: Cursor, afterFiles: Cursor)
    requires n.Folder?
    requires total == ChildTotal(n, path, expanded)
    requires childX == leftX + ParentChildDistance && y0 == centerY - total / 2.0
    requires afterFolders == LayoutFolders(n, path, nodeId, childX, Cursor(placed, y0), expanded, projectRoot, place, |Folders(n.children)|)
    requires afterFiles == LayoutFiles(Files(n.children), nodeId, childX, place, projectRoot, afterFolders, |Files(n.children)|)
    ensures ChildrenLayout(n, path, nodeId, leftX, centerY, expanded, projectRoot, place, placed) == afterFiles.out
  {
  }

  /** The first loop of `processNode`'s child branch: the extents of the child folders plus 100 per file. */
  method TotalChildHeight(n: PA.Node, path: string, expanded: set<string>) returns (total: real)
    requires n.Folder?
    ensures total == ChildTotal(n, path, expanded)
  {
    var childFolders := Folders(n.children);
    total := 0.0;
    for i := 0 to |childFolders|
      invariant total == FolderExtent(n, path, expanded, i).height
    {
      var child := childFolders[i];
      var childDim := CalculateTreeDimensions(child, ChildPath(path, child.name), expanded);
      total := total + childDim.height + FolderToFolderSpacing;
    }
    total := total + (|Files(n.children)| as real) * FileToFileSpacing;
  }

  /** The `forEach` over the child folders: each subtree centred in its extent. */
  method ProcessChildFolders(n: PA.Node, path: string, nodeId: string, childX: real, expanded: set<string>, projectRoot: string,
                             nodes0: seq<FlowNode>, edges0: seq<FlowEdge>, y0: real)
    returns (nodes: seq<FlowNode>, edges: seq<FlowEdge>, childY: real)
    requires n.Folder?
    ensures Cursor(Out(nodes, edges), childY)
         == LayoutFolders(n, path, nodeId, childX, Cursor(Out(nodes0, edges0), y0), expanded, projectRoot, CompactPosition, |Folders(n.children)|)
    decreases n, 1, 0
  {
    nodes, edges, childY := nodes0, edges0, y0;
    var childFolders := Folders(n.children);
    ghost var start := Cursor(Out(nodes, edges), childY);
    for i := 0 to |childFolders|
      invariant Cursor(Out(nodes, edges), childY) == LayoutFolders(n, path, nodeId, childX, start, expanded, projectRoot, CompactPosition, i)
    {
      ghost var prev := Out(nodes, edges);
      ghost var prevY := childY;
      var child := childFolders[i];
      FolderIn(n.children, i);
      var childPath := ChildPath(path, child.name);
      var childDim := CalculateTreeDimensions(child, childPath, expanded);
      var childCenterY := childY + childDim.height / 2.0;
      nodes, edges := ProcessNode(child, childPath, Some(nodeId), childX, childCenterY, expanded, projectRoot, nodes, edges);
      childY := childY + childDim.height + FolderToFolderSpacing;
      LayoutFoldersStep(n, path, nodeId, childX, start, expanded, projectRoot, CompactPosition, i, child, childPath, prev, prevY, childDim, childCenterY, Out(nodes, edges));
    }
  }

  /** The `forEach` over the files: one file node and one edge per file, 100 apart. */
  method ProcessFiles(files: seq<PA.Node>, nodeId: string, childX: real, projectRoot: string,
                      nodes0: seq<FlowNode>, edges0: seq<FlowEdge>, y0: real)
    returns (nodes: seq<FlowNode>, edges: seq<FlowEdge>, childY: real)
    ensures Cursor(Out(nodes, edges), childY) == LayoutFiles(files, nodeId, childX, CompactPosition, projectRoot, Cursor(Out(nodes0, edges0), y0), |files|)
  {
    nodes, edges, childY := nodes0, edges0, y0;
    ghost var start := Cursor(Out(nodes, edges), childY);
    for i := 0 to |files|
      invariant Cursor(Out(nodes, edges), childY) == LayoutFiles(files, nodeId, childX, CompactPosition, projectRoot, start, i)
    {
      var file := files[i];
      var fileNodeId := FileNodeId(nodeId, i);
      var fileY := childY + FileToFileSpacing / 2.0;
      var safe := FindCompactPosition(Position(childX + FileHorizontalOffset, fileY - FileHeight / 2.0), nodes, FileWidth, FileHeight);
      nodes := nodes + [FileNode(file, fileNodeId, safe, projectRoot)];
      edges := edges + [CreateDataEdge(nodeId, fileNodeId, file.isAppRouter, FileEdge)];
      childY := childY + FileToFileSpacing;
    }
  }

  lemma LayoutFoldersStep(n: PA.Node, path: string, nodeId: string, childX: real, start: Cursor, expanded: set<string>, projectRoot: string,
                          place: Placer, i: nat, c: PA.Node, childPath: string, prev: Out, prevY: real, dim: Dimensions, center: real, result: Out)
    requires n.Folder? && i < |Folders(n.children)|
    requires c == Folders(n.children)[i] && childPath == ChildPath(path, c.name)
    requires LayoutFolders(n, path, nodeId, childX, start, expanded, projectRoot, place, i) == Cursor(prev, prevY)
    requires dim == TreeDimensions(c, childPath, expanded)
    requires center == prevY + dim.height / 2.0
    requires result == LayoutNode(c, childPath, Some(nodeId), childX, center, expanded, projectRoot, place, prev)
    ensures LayoutFolders(n, path, nodeId, childX, start, expanded, projectRoot, place, i + 1) == Cursor(result, prevY + dim.height + FolderToFolderSpacing)
  {
  }

  /** `buildTreeLayout` */
  method BuildTreeLayout(root: PA.Node, expanded: set<string>, projectRoot: string) returns (nodes: seq<FlowNode>, edges: seq<FlowEdge>)
    ensures Out(nodes, edges) == TreeLayout(root, expanded, projectRoot)
    ensures forall k :: 0 <= k < |nodes| && nodes[k].data.FileData? ==> nodes[k].data.projectRoot == projectRoot
  {
    nodes, edges := ProcessNode(root, "root", None, RootStartX, 0.0, expanded, projectRoot, [], []);
    TreeLayoutFilesCarryRoot(root, expanded, projectRoot);
  }

  // ---------------------------------------------------------------------------
  // The shape of the tree layout
  // ---------------------------------------------------------------------------

  /** Some node from position `from` on carries the edge's target as its id. */
  predicate TargetIn(e: FlowEdge, nodes: seq<FlowNode>, from: nat) {
    exists j :: from <= j < |nodes| && nodes[j].id == e.target
  }

  /**
    `res` keeps `out` as a prefix, adds `missing` more nodes than edges, and
    every added edge points at an added node.
   */
  predicate Extends(out: Out, res: Out, missing: nat, projectRoot: string) {
    |out.nodes| <= |res.nodes| && |out.edges| <= |res.edges|
    && res.nodes[..|out.nodes|] == out.nodes && res.edges[..|out.edges|] == out.edges
    && |res.nodes| - |out.nodes| == |res.edges| - |out.edges| + missing
    && (forall k :: |out.edges| <= k < |res.edges| ==> TargetIn(res.edges[k], res.nodes, |out.nodes|))
    && forall k :: |out.nodes| <= k < |res.nodes| ==> CarriesRoot(res.nodes[k], projectRoot)
  }

  /** A file node carries the project root it was laid out with; other nodes carry none. */
  predicate CarriesRoot(node: FlowNode, projectRoot: string) {
    node.data.FileData? ==> node.data.projectRoot == projectRoot
  }

  lemma ExtendsTrans(a: Out, b: Out, c: Out, m1: nat, m2: nat, projectRoot: string)
    requires Extends(a, b, m1, projectRoot) && Extends(b, c, m2, projectRoot)
    ensures Extends(a, c, m1 + m2, projectRoot)
  {
    assert c.nodes[..|a.nodes|] == c.nodes[..|b.nodes|][..|a.nodes|];
    assert c.edges[..|a.edges|] == c.edges[..|b.edges|][..|a.edges|];
    forall k | |a.edges| <= k < |c.edges| ensures TargetIn(c.edges[k], c.nodes, |a.nodes|) {
      if k < |b.edges| {
        assert c.edges[k] == b.edges[k];
        var j :| |a.nodes| <= j < |b.nodes| && b.nodes[j].id == b.edges[k].target;
        assert c.nodes[j] == b.nodes[j];
      }
    }
    forall k | |a.nodes| <= k < |c.nodes| ensures CarriesRoot(c.nodes[k], projectRoot) {
      if k < |b.nodes| {
        assert c.nodes[k] == b.nodes[k];
      }
    }
  }

  lemma ExtendsRefl(a: Out, projectRoot: string)
    ensures Extends(a, a, 0, projectRoot)
  {
  }

  /** One node pushed with the edge that points at it. */
  lemma PushExtends(out: Out, node: FlowNode, edges: seq<FlowEdge>, projectRoot: string)
    requires |edges| <= 1 && forall k :: 0 <= k < |edges| ==> edges[k].target == node.id
    requires CarriesRoot(node, projectRoot)
    ensures Extends(out, Out(out.nodes + [node], out.edges + edges), 1 - |edges|, projectRoot)
  {
    var res := Out(out.nodes + [node], out.edges + edges);
    forall k | |out.edges| <= k < |res.edges| ensures TargetIn(res.edges[k], res.nodes, |out.nodes|) {
      assert res.nodes[|out.nodes|] == node;
    }
    assert res.nodes[|out.nodes|] == node;
  }

  /** A node adds one node more than edges when it is a parentless folder, as many otherwise. */
  function Missing(n: PA.Node, parentId: Option<string>): nat {
    if n.Folder? && parentId.None? then 1 else 0
  }

  lemma {:induction false} LayoutNodeExtends(n: PA.Node, path: string, parentId: Option<string>, leftX: real, centerY: real,
                                            expanded: set<string>, projectRoot: string, place: Placer, out: Out, res: Out)
    requires res == LayoutNode(n, path, parentId, leftX, centerY, expanded, projectRoot, place, out)
    ensures Extends(out, res, Missing(n, parentId), projectRoot)
    decreases n, 2
  {
    var nodeId := CreateNodeId(path);
    var placed := Placed(n, nodeId, parentId, leftX, centerY, expanded, place, out);
    if n.Folder? {
      var safe := place(Position(leftX, centerY - FolderHeight / 2.0), out.nodes, FolderWidth, FolderHeight);
      PushExtends(out, FolderNode(n, nodeId, safe, expanded),
                  if parentId.Some? then [CreateDataEdge(parentId.value, nodeId, n.isAppRouter, FolderEdge)] else [], projectRoot);
    } else {
      ExtendsRefl(out, projectRoot);
    }
    if ShowsChildren(n, nodeId, expanded) {
      var children := ChildrenLayout(n, path, nodeId, leftX, centerY, expanded, projectRoot, place, placed);
      ChildrenLayoutExtends(n, path, nodeId, leftX, centerY, expanded, projectRoot, place, placed, children);
      ExtendsTrans(out, placed, children, Missing(n, parentId), 0, projectRoot);
    }
  }

  lemma {:induction false} ChildrenLayoutExtends(n: PA.Node, path: string, nodeId: string, leftX: real, centerY: real,
                                                expanded: set<string>, projectRoot: string, place: Placer, placed: Out, res: Out)
    requires n.Folder?
    requires res == ChildrenLayout(n, path, nodeId, leftX, centerY, expanded, projectRoot, place, placed)
    ensures Extends(placed, res, 0, projectRoot)
    decreases n, 1, |Folders(n.children)| + 1
  {
    var files := Files(n.children);
    var childX := leftX + ParentChildDistance;
    var start := Cursor(placed, centerY - ChildTotal(n, path, expanded) / 2.0);
    var afterFolders := LayoutFolders(n, path, nodeId, childX, start, expanded, projectRoot, place, |Folders(n.children)|);
    LayoutFoldersExtends(n, path, nodeId, childX, start, expanded, projectRoot, place, |Folders(n.children)|, afterFolders);
    var afterFiles := LayoutFiles(files, nodeId, childX, place, projectRoot, afterFolders, |files|);
    LayoutFilesExtends(files, nodeId, childX, place, projectRoot, afterFolders, |files|, afterFiles);
    assert res == afterFiles.out;
    ExtendsTrans(placed, afterFolders.out, afterFiles.out, 0, 0, projectRoot);
  }

  lemma {:induction false} LayoutFoldersExtends(n: PA.Node, path: string, nodeId: string, childX: real, start: Cursor,
                                               expanded: set<string>, projectRoot: string, place: Placer, i: nat, cur: Cursor)
    requires n.Folder? && i <= |Folders(n.children)|
    requires cur == LayoutFolders(n, path, nodeId, childX, start, expanded, projectRoot, place, i)
    ensures Extends(start.out, cur.out, 0, projectRoot)
    decreases n, 1, i
  {
    if i == 0 {
      ExtendsRefl(start.out, projectRoot);
    } else {
      var prev := LayoutFolders(n, path, nodeId, childX, start, expanded, projectRoot, place, i - 1);
      LayoutFoldersExtends(n, path, nodeId, childX, start, expanded, projectRoot, place, i - 1, prev);
      FoldersExtendStep(n, path, nodeId, childX, start, expanded, projectRoot, place, i - 1, prev, cur);
    }
  }

  /** Folder `i` extends the layout of the folders before it. */
  lemma {:induction false} FoldersExtendStep(n: PA.Node, path: string, nodeId: string, childX: real, start: Cursor,
                                            expanded: set<string>, projectRoot: string, place: Placer, i: nat, prev: Cursor, cur: Cursor)
    requires n.Folder? && i < |Folders(n.children)|
    requires prev == LayoutFolders(n, path, nodeId, childX, start, expanded, projectRoot, place, i)
    requires cur == LayoutFolders(n, path, nodeId, childX, start, expanded, projectRoot, place, i + 1)
    requires Extends(start.out, prev.out, 0, projectRoot)
    ensures Extends(start.out, cur.out, 0, projectRoot)
    decreases n, 1, i
  {
    var c := Folders(n.children)[i];
    FolderIn(n.children, i);
    var childPath := ChildPath(path, c.name);
    var dim := TreeDimensions(c, childPath, expanded);
    var center := prev.y + dim.height / 2.0;
    var result := LayoutNode(c, childPath, Some(nodeId), childX, center, expanded, projectRoot, place, prev.out);
    LayoutNodeExtends(c, childPath, Some(nodeId), childX, center, expanded, projectRoot, place, prev.out, result);
    LayoutFoldersStep(n, path, nodeId, childX, start, expanded, projectRoot, place, i, c, childPath, prev.out, prev.y, dim, center, result);
    assert cur.out == result;
    ExtendsTrans(start.out, prev.out, result, 0, 0, projectRoot);
  }

  lemma {:induction false} LayoutFilesExtends(files: seq<PA.Node>, nodeId: string, childX: real, place: Placer, projectRoot: string, start: Cursor,
                                             i: nat, res: Cursor)
    requires i <= |files|
    requires res == LayoutFiles(files, nodeId, childX, place, projectRoot, start, i)
    ensures Extends(start.out, res.out, 0, projectRoot)
  {
    if i == 0 {
      ExtendsRefl(start.out, projectRoot);
    } else {
      var cur := LayoutFiles(files, nodeId, childX, place, projectRoot, start, i - 1);
      LayoutFilesExtends(files, nodeId, childX, place, projectRoot, start, i - 1, cur);
      FilesExtendStep(files, nodeId, childX, place, projectRoot, start, i - 1, cur, res);
    }
  }

  /** File `i` adds its node and the edge to it. */
  lemma FilesExtendStep(files: seq<PA.Node>, nodeId: string, childX: real, place: Placer, projectRoot: string, start: Cursor,
                        i: nat, cur: Cursor, res: Cursor)
    requires i < |files|
    requires res == LayoutFiles(files, nodeId, childX, place, projectRoot, start, i + 1)
    requires cur == LayoutFiles(files, nodeId, childX, place, projectRoot, start, i)
    requires Extends(start.out, cur.out, 0, projectRoot)
    ensures Extends(start.out, res.out, 0, projectRoot)
  {
    var fileNodeId := FileNodeId(nodeId, i);
    var safe := place(Position(childX + FileHorizontalOffset, cur.y + FileToFileSpacing / 2.0 - FileHeight / 2.0), cur.out.nodes, FileWidth, FileHeight);
    var pushed := Out(cur.out.nodes + [FileNode(files[i], fileNodeId, safe, projectRoot)],
                      cur.out.edges + [CreateDataEdge(nodeId, fileNodeId, files[i].isAppRouter, FileEdge)]);
    PushExtends(cur.out, FileNode(files[i], fileNodeId, safe, projectRoot), [CreateDataEdge(nodeId, fileNodeId, files[i].isAppRouter, FileEdge)], projectRoot);
    assert res.out == pushed;
    ExtendsTrans(start.out, cur.out, pushed, 0, 0, projectRoot);
  }

  /** Some node of `o` carries `id`. */
  predicate HasId(o: Out, id: string) {
    exists j :: 0 <= j < |o.nodes| && o.nodes[j].id == id
  }

  /** Edge `k` points at node `k + 1` and starts at a node pushed no later than node `k`. */
  predicate EdgeJoins(o: Out, k: nat)
    requires k < |o.edges| && k + 1 < |o.nodes|
  {
    o.edges[k].target == o.nodes[k + 1].id && exists j :: 0 <= j <= k && o.nodes[j].id == o.edges[k].source
  }

  /**
    Nodes and edges in push order form a tree: node 0 is the root, and edge
    `k` hangs node `k + 1` from a node pushed before it.
   */
  predicate Paired(o: Out) {
    |o.nodes| == |o.edges| + 1 && forall k :: 0 <= k < |o.edges| ==> EdgeJoins(o, k)
  }

  /** A longer output that keeps `a` as its prefix keeps its ids. */
  lemma KeepsId(a: Out, b: Out, id: string)
    requires |a.nodes| <= |b.nodes| && b.nodes[..|a.nodes|] == a.nodes
    requires HasId(a, id)
    ensures HasId(b, id)
  {
    var j :| 0 <= j < |a.nodes| && a.nodes[j].id == id;
    assert b.nodes[j] == b.nodes[..|a.nodes|][j];
  }

  /** A node pushed with the edge from a node already there keeps the tree. */
  lemma PushPaired(o: Out, node: FlowNode, e: FlowEdge)
    requires Paired(o) && e.target == node.id && HasId(o, e.source)
    ensures Paired(Out(o.nodes + [node], o.edges + [e]))
    ensures HasId(Out(o.nodes + [node], o.edges + [e]), node.id)
  {
    var res := Out(o.nodes + [node], o.edges + [e]);
    forall k | 0 <= k < |res.edges| ensures EdgeJoins(res, k) {
      if k < |o.edges| {
        assert EdgeJoins(o, k);
        var j :| 0 <= j <= k && o.nodes[j].id == o.edges[k].source;
        assert res.nodes[j] == o.nodes[j] && res.nodes[k + 1] == o.nodes[k + 1];
      } else {
        var j :| 0 <= j < |o.nodes| && o.nodes[j].id == e.source;
        assert res.nodes[j] == o.nodes[j] && res.nodes[k + 1] == node;
      }
    }
    assert res.nodes[|o.nodes|] == node;
  }

  lemma {:induction false} LayoutNodePaired(n: PA.Node, path: string, parentId: string, leftX: real, centerY: real,
                                           expanded: set<string>, projectRoot: string, place: Placer, out: Out, res: Out)
    requires n.Folder? && Paired(out) && HasId(out, parentId)
    requires res == LayoutNode(n, path, Some(parentId), leftX, centerY, expanded, projectRoot, place, out)
    ensures Paired(res)
    decreases n, 2
  {
    var nodeId := CreateNodeId(path);
    var safe := place(Position(leftX, centerY - FolderHeight / 2.0), out.nodes, FolderWidth, FolderHeight);
    var node := FolderNode(n, nodeId, safe, expanded);
    var e := CreateDataEdge(parentId, nodeId, n.isAppRouter, FolderEdge);
    var placed := Placed(n, nodeId, Some(parentId), leftX, centerY, expanded, place, out);
    assert placed == Out(out.nodes + [node], out.edges + [e]);
    PushPaired(out, node, e);
    if ShowsChildren(n, nodeId, expanded) {
      ChildrenLayoutPaired(n, path, nodeId, leftX, centerY, expanded, projectRoot, place, placed, res);
    }
  }

  lemma {:induction false} ChildrenLayoutPaired(n: PA.Node, path: string, nodeId: string, leftX: real, centerY: real,
                                               expanded: set<string>, projectRoot: string, place: Placer, placed: Out, res: Out)
    requires n.Folder? && Paired(placed) && HasId(placed, nodeId)
    requires res == ChildrenLayout(n, path, nodeId, leftX, centerY, expanded, projectRoot, place, placed)
    ensures Paired(res)
    decreases n, 1, |Folders(n.children)| + 1
  {
    var files := Files(n.children);
    var childX := leftX + ParentChildDistance;
    var start := Cursor(placed, centerY - ChildTotal(n, path, expanded) / 2.0);
    var afterFolders := LayoutFolders(n, path, nodeId, childX, start, expanded, projectRoot, place, |Folders(n.children)|);
    LayoutFoldersPaired(n, path, nodeId, childX, start, expanded, projectRoot, place, |Folders(n.children)|, afterFolders);
    var afterFiles := LayoutFiles(files, nodeId, childX, place, projectRoot, afterFolders, |files|);
    LayoutFilesPaired(files, nodeId, childX, place, projectRoot, afterFolders, |files|, afterFiles);
  }

  lemma {:induction false} LayoutFoldersPaired(n: PA.Node, path: string, nodeId: string, childX: real, start: Cursor,
                                              expanded: set<string>, projectRoot: string, place: Placer, i: nat, cur: Cursor)
    requires n.Folder? && i <= |Folders(n.children)|
    requires Paired(start.out) && HasId(start.out, nodeId)
    requires cur == LayoutFolders(n, path, nodeId, childX, start, expanded, projectRoot, place, i)
    ensures Paired(cur.out) && HasId(cur.out, nodeId)
    decreases n, 1, i
  {
    if i > 0 {
      var prev := LayoutFolders(n, path, nodeId, childX, start, expanded, projectRoot, place, i - 1);
      LayoutFoldersPaired(n, path, nodeId, childX, start, expanded, projectRoot, place, i - 1, prev);
      var c := Folders(n.children)[i - 1];
      FolderIn(n.children, i - 1);
      assert c in n.children && c.Folder?;
      var childPath := ChildPath(path, c.name);
      var center := prev.y + TreeDimensions(c, childPath, expanded).height / 2.0;
      assert cur.out == LayoutNode(c, childPath, Some(nodeId), childX, center, expanded, projectRoot, place, prev.out);
      ChildPairedUnder(c, childPath, nodeId, childX, center, expanded, projectRoot, place, prev.out, cur.out);
    }
  }

  /** A child folder laid out under a placed folder keeps the tree and the folder's node. */
  lemma {:induction false} ChildPairedUnder(c: PA.Node, childPath: string, nodeId: string, childX: real, center: real,
                                           expanded: set<string>, projectRoot: string, place: Placer, out: Out, result: Out)
    requires c.Folder? && Paired(out) && HasId(out, nodeId)
    requires result == LayoutNode(c, childPath, Some(nodeId), childX, center, expanded, projectRoot, place, out)
    ensures Paired(result) && HasId(result, nodeId)
    decreases c, 3
  {
    LayoutNodePaired(c, childPath, nodeId, childX, center, expanded, projectRoot, place, out, result);
    LayoutNodeExtends(c, childPath, Some(nodeId), childX, center, expanded, projectRoot, place, out, result);
    KeepsId(out, result, nodeId);
  }

  lemma {:induction false} LayoutFilesPaired(files: seq<PA.Node>, nodeId: string, childX: real, place: Placer, projectRoot: string,
                                            start: Cursor, i: nat, res: Cursor)
    requires i <= |files|
    requires Paired(start.out) && HasId(start.out, nodeId)
    requires res == LayoutFiles(files, nodeId, childX, place, projectRoot, start, i)
    ensures Paired(res.out) && HasId(res.out, nodeId)
  {
    if i > 0 {
      var cur := LayoutFiles(files, nodeId, childX, place, projectRoot, start, i - 1);
      LayoutFilesPaired(files, nodeId, childX, place, projectRoot, start, i - 1, cur);
      var fileNodeId := FileNodeId(nodeId, i - 1);
      var safe := place(Position(childX + FileHorizontalOffset, cur.y + FileToFileSpacing / 2.0 - FileHeight / 2.0), cur.out.nodes, FileWidth, FileHeight);
      var node := FileNode(files[i - 1], fileNodeId, safe, projectRoot);
      var e := CreateDataEdge(nodeId, fileNodeId, files[i - 1].isAppRouter, FileEdge);
      PushPaired(cur.out, node, e);
      assert res.out == Out(cur.out.nodes + [node], cur.out.edges + [e]);
      KeepsId(cur.out, res.out, nodeId);
    }
  }

  /** The layout of a folder root, in push order, is a tree. */
  lemma TreeLayoutPaired(root: PA.Node, expanded: set<string>, projectRoot: string)
    requires root.Folder?
    ensures Paired(TreeLayout(root, expanded, projectRoot))
  {
    var nodeId := CreateNodeId("root");
    var placed := Placed(root, nodeId, None, RootStartX, 0.0, expanded, CompactPosition, Out([], []));
    assert placed.nodes[0].id == nodeId;
    if ShowsChildren(root, nodeId, expanded) {
      ChildrenLayoutPaired(root, "root", nodeId, RootStartX, 0.0, expanded, projectRoot, CompactPosition, placed,
                           TreeLayout(root, expanded, projectRoot));
    }
  }

  /**
    The layout of a folder root is a tree: one edge fewer than nodes, the
    root first, and edge `k` hanging node `k + 1` from a node pushed before
    it, so every node after the first is the target of the edge pushed with
    it. When the ids are distinct, that edge is the only one pointing at it,
    and none points at the root. A file root lays out nothing.
   */
  lemma TreeLayoutIsTree(root: PA.Node, expanded: set<string>, projectRoot: string)
    ensures var o := TreeLayout(root, expanded, projectRoot);
      (root.Folder? ==> |o.nodes| == |o.edges| + 1 && forall k :: 0 <= k < |o.edges| ==> TargetIn(o.edges[k], o.nodes, 0))
      && (root.File? ==> o == Out([], []))
    ensures var o := TreeLayout(root, expanded, projectRoot);
      root.Folder? ==> forall k :: 0 <= k < |o.edges| ==>
        o.edges[k].target == o.nodes[k + 1].id && exists j :: 0 <= j <= k && o.nodes[j].id == o.edges[k].source
    ensures var o := TreeLayout(root, expanded, projectRoot);
      root.Folder? && (forall a, b :: 0 <= a < b < |o.nodes| ==> o.nodes[a].id != o.nodes[b].id) ==>
        forall k, m :: 0 <= k < |o.edges| && 0 <= m < |o.nodes| ==> (o.edges[k].target == o.nodes[m].id <==> m == k + 1)
  {
    var o := TreeLayout(root, expanded, projectRoot);
    LayoutNodeExtends(root, "root", None, RootStartX, 0.0, expanded, projectRoot, CompactPosition, Out([], []), o);
    if root.Folder? {
      TreeLayoutPaired(root, expanded, projectRoot);
      PairedJoins(o);
      PairedTargets(o);
    }
  }

  lemma PairedJoins(o: Out)
    requires Paired(o)
    ensures forall k :: 0 <= k < |o.edges| ==>
      o.edges[k].target == o.nodes[k + 1].id && exists j :: 0 <= j <= k && o.nodes[j].id == o.edges[k].source
  {
    forall k | 0 <= k < |o.edges|
      ensures o.edges[k].target == o.nodes[k + 1].id && exists j :: 0 <= j <= k && o.nodes[j].id == o.edges[k].source
    {
      assert EdgeJoins(o, k);
    }
  }

  /** With distinct ids, the edge pushed with a node is the only one pointing at it. */
  lemma PairedTargets(o: Out)
    requires Paired(o)
    ensures (forall a, b :: 0 <= a < b < |o.nodes| ==> o.nodes[a].id != o.nodes[b].id) ==>
      forall k, m :: 0 <= k < |o.edges| && 0 <= m < |o.nodes| ==> (o.edges[k].target == o.nodes[m].id <==> m == k + 1)
  {
    if forall a, b :: 0 <= a < b < |o.nodes| ==> o.nodes[a].id != o.nodes[b].id {
      forall k, m | 0 <= k < |o.edges| && 0 <= m < |o.nodes|
        ensures o.edges[k].target == o.nodes[m].id <==> m == k + 1
      {
        assert EdgeJoins(o, k);
        if m < k + 1 {
          assert o.nodes[m].id != o.nodes[k + 1].id;
        } else if m > k + 1 {
          assert o.nodes[k + 1].id != o.nodes[m].id;
        }
      }
    }
  }

  /**
    Every file node of the layout carries the project root it was given, the
    value the file card hands on when it asks for its dependencies.
   */
  lemma TreeLayoutFilesCarryRoot(root: PA.Node, expanded: set<string>, projectRoot: string)
    ensures var o := TreeLayout(root, expanded, projectRoot);
      forall k :: 0 <= k < |o.nodes| && o.nodes[k].data.FileData? ==> o.nodes[k].data.projectRoot == projectRoot
  {
    var o := TreeLayout(root, expanded, projectRoot);
    LayoutNodeExtends(root, "root", None, RootStartX, 0.0, expanded, projectRoot, CompactPosition, Out([], []), o);
    assert forall k :: 0 <= k < |o.nodes| ==> CarriesRoot(o.nodes[k], projectRoot);
  }
}
