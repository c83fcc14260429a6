/**
  The dependency nodes of the project explorer: the local and external
  dependencies of an analysed file, stacked to the right of the file's
  node, and the merge of every analysed file's dependency nodes into the
  base layout.
 */
module FlowDependencies {
  import opened Strings
  import opened Wrappers
  import opened Geometry
  import opened FlowLayout
  import DA = DependencyAnalyzer

  // ---------------------------------------------------------------------------
  // The nodes of one file's dependencies
  // ---------------------------------------------------------------------------

  /** `[...localDependencies, ...externalDependencies]` */
  function AllDeps(d: DA.DependencyAnalysis): seq<DA.DependencyInfo> {
    d.localDependencies + d.externalDependencies
  }

  /** `dep.nodeId || dep.uiId || index`: an empty string is skipped. */
  function DependencyKey(dep: DA.DependencyInfo, index: nat): string {
    if dep.nodeId != "" then dep.nodeId else if dep.uiId != "" then dep.uiId else NatToString(index)
  }

  function DependencyNodeId(parentId: string, dep: DA.DependencyInfo, index: nat): string {
    parentId + "-dep-" + DependencyKey(dep, index)
  }

  function DependencyNode(dep: DA.DependencyInfo, nodeId: string, position: Position): FlowNode {
    FlowNode(nodeId, position, DependencyWidth, DependencyHeight, DependencyData(dep.name, dep))
  }

  /** Local dependencies get the solid green edge, external ones the dashed one. */
  function EdgeKindOf(dep: DA.DependencyInfo): EdgeKind {
    if DA.IsLocal(dep) then DependencyLocal else DependencyExternal
  }

  /** Dependency `index`: its node centred in its 100-high slot, placed clear of the nodes so far. */
  function DependencyStep(dep: DA.DependencyInfo, index: nat, parentId: string, childX: real,
                          existing: seq<FlowNode>, place: Placer, cur: Cursor): Cursor
  {
    var depY := cur.y + DependencyVerticalSpacing / 2.0;
    var safe := place(Position(childX, depY - DependencyHeight / 2.0), existing + cur.out.nodes, DependencyWidth, DependencyHeight);
    var nodeId := DependencyNodeId(parentId, dep, index);
    Cursor(Out(cur.out.nodes + [DependencyNode(dep, nodeId, safe)],
               cur.out.edges + [CreateDataEdge(parentId, nodeId, false, EdgeKindOf(dep))]),
           cur.y + DependencyVerticalSpacing)
  }

  /** The first `i` dependencies. */
  function LayoutDependencies(deps: seq<DA.DependencyInfo>, parentId: string, childX: real,
                              existing: seq<FlowNode>, place: Placer, start: Cursor, i: nat): Cursor
    requires i <= |deps|
  {
    if i == 0 then start
    else DependencyStep(deps[i - 1], i - 1, parentId, childX, existing, place,
                        LayoutDependencies(deps, parentId, childX, existing, place, start, i - 1))
  }

  /** Where the first slot starts: the slots are centred on the parent's y. */
  function FirstSlotY(parentPosition: Position, count: nat): real {
    parentPosition.y - (count as real) * DependencyVerticalSpacing / 2.0
  }

  /** `createDependencyNodes`: no dependencies give no nodes; otherwise one node and one edge per dependency. */
  function DependencyNodes(d: DA.DependencyAnalysis, parentId: string, parentPosition: Position,
                           existing: seq<FlowNode>, place: Placer): Out
  {
    var deps := AllDeps(d);
    if |deps| == 0 then Out([], [])
    else LayoutDependencies(deps, parentId, parentPosition.x + DependencyHorizontalDistance, existing, place,
                            Cursor(Out([], []), FirstSlotY(parentPosition, |deps|)), |deps|).out
  }

  /** The layout of the first `i` dependencies, entry by entry. */
  predicate DependencyShape(deps: seq<DA.DependencyInfo>, parentId: string, childX: real, existing: seq<FlowNode>,
                            place: Placer, y0: real, i: nat, c: Cursor)
    requires i <= |deps|
  {
    var o := c.out;
    |o.nodes| == i && |o.edges| == i && c.y == y0 + (i as real) * DependencyVerticalSpacing
    && forall k :: 0 <= k < i ==>
      o.nodes[k] == DependencyNode(deps[k], DependencyNodeId(parentId, deps[k], k),
                                   place(Position(childX, y0 + (k as real) * DependencyVerticalSpacing + 30.0),
                                         existing + o.nodes[..k], DependencyWidth, DependencyHeight))
      && o.edges[k] == CreateDataEdge(parentId, o.nodes[k].id, false, EdgeKindOf(deps[k]))
  }

  /**
    Dependency `k` gets node `k` and edge `k`: the node in the slot 100 * k
    below the first, 30 below the slot's top, placed against the existing
    nodes and the dependency nodes before it; the edge from the parent to it.
   */
  lemma {:induction false} LayoutDependenciesShape(deps: seq<DA.DependencyInfo>, parentId: string, childX: real,
                                                  existing: seq<FlowNode>, place: Placer, y0: real, i: nat, c: Cursor)
    requires i <= |deps|
    requires c == LayoutDependencies(deps, parentId, childX, existing, place, Cursor(Out([], []), y0), i)
    ensures DependencyShape(deps, parentId, childX, existing, place, y0, i, c)
  {
    if i > 0 {
      var prev := LayoutDependencies(deps, parentId, childX, existing, place, Cursor(Out([], []), y0), i - 1);
      LayoutDependenciesShape(deps, parentId, childX, existing, place, y0, i - 1, prev);
      ShapeStep(deps, parentId, childX, existing, place, y0, i - 1, prev, c);
    }
  }

  lemma ShapeStep(deps: seq<DA.DependencyInfo>, parentId: string, childX: real, existing: seq<FlowNode>,
                  place: Placer, y0: real, i: nat, prev: Cursor, c: Cursor)
    requires i < |deps| && DependencyShape(deps, parentId, childX, existing, place, y0, i, prev)
    requires c == DependencyStep(deps[i], i, parentId, childX, existing, place, prev)
    ensures DependencyShape(deps, parentId, childX, existing, place, y0, i + 1, c)
  {
    var o := c.out;
    assert o.nodes[..i] == prev.out.nodes;
    forall k | 0 <= k < i
      ensures o.nodes[k] == prev.out.nodes[k] && o.edges[k] == prev.out.edges[k] && o.nodes[..k] == prev.out.nodes[..k]
    {
    }
    assert prev.y + DependencyVerticalSpacing / 2.0 - DependencyHeight / 2.0 == y0 + (i as real) * DependencyVerticalSpacing + 30.0;
  }

  /** What the shape says about identities, data and edge style. */
  predicate DependencyIds(deps: seq<DA.DependencyInfo>, parentId: string, o: Out) {
    |o.nodes| == |deps| && |o.edges| == |deps|
    && forall k :: 0 <= k < |deps| ==>
         o.nodes[k].id == DependencyNodeId(parentId, deps[k], k) && o.nodes[k].data == DependencyData(deps[k].name, deps[k])
         && o.edges[k].source == parentId && o.edges[k].target == o.nodes[k].id
         && (o.edges[k].dashArray.Some? <==> !DA.IsLocal(deps[k]))
  }

  /** The dependencies' layout, before it is taken apart. */
  lemma DependencyNodesUnfold(d: DA.DependencyAnalysis, parentId: string, parentPosition: Position,
                              existing: seq<FlowNode>, place: Placer, c: Cursor)
    requires |AllDeps(d)| > 0
    requires c == LayoutDependencies(AllDeps(d), parentId, parentPosition.x + DependencyHorizontalDistance, existing, place,
                                     Cursor(Out([], []), FirstSlotY(parentPosition, |AllDeps(d)|)), |AllDeps(d)|)
    ensures DependencyNodes(d, parentId, parentPosition, existing, place) == c.out
  {
  }

  lemma LayoutIds(deps: seq<DA.DependencyInfo>, parentId: string, childX: real, existing: seq<FlowNode>,
                  place: Placer, y0: real, c: Cursor)
    requires c == LayoutDependencies(deps, parentId, childX, existing, place, Cursor(Out([], []), y0), |deps|)
    ensures DependencyIds(deps, parentId, c.out)
  {
    LayoutDependenciesShape(deps, parentId, childX, existing, place, y0, |deps|, c);
  }

  /** Every dependency gets exactly one node and one edge from the parent, which is the edge's source. */
  lemma DependencyNodesShape(d: DA.DependencyAnalysis, parentId: string, parentPosition: Position,
                             existing: seq<FlowNode>, place: Placer)
    ensures DependencyIds(AllDeps(d), parentId, DependencyNodes(d, parentId, parentPosition, existing, place))
  {
    var deps := AllDeps(d);
    if |deps| > 0 {
      var y0 := FirstSlotY(parentPosition, |deps|);
      var childX := parentPosition.x + DependencyHorizontalDistance;
      var c := LayoutDependencies(deps, parentId, childX, existing, place, Cursor(Out([], []), y0), |deps|);
      LayoutIds(deps, parentId, childX, existing, place, y0, c);
      DependencyNodesUnfold(d, parentId, parentPosition, existing, place, c);
    }
  }

  /** Dependency `k`'s node is where the placer put it: proposed in slot `k`, against everything before it. */
  predicate DependencyPositions(deps: seq<DA.DependencyInfo>, parentPosition: Position, existing: seq<FlowNode>,
                                place: Placer, o: Out)
  {
    |o.nodes| == |deps|
    && forall k :: 0 <= k < |deps| ==>
         o.nodes[k].position
           == place(Position(parentPosition.x + DependencyHorizontalDistance,
                             FirstSlotY(parentPosition, |deps|) + (k as real) * DependencyVerticalSpacing + 30.0),
                    existing + o.nodes[..k], DependencyWidth, DependencyHeight)
  }

  lemma LayoutPositions(deps: seq<DA.DependencyInfo>, parentId: string, parentPosition: Position, existing: seq<FlowNode>,
                        place: Placer, c: Cursor)
    requires c == LayoutDependencies(deps, parentId, parentPosition.x + DependencyHorizontalDistance, existing, place,
                                     Cursor(Out([], []), FirstSlotY(parentPosition, |deps|)), |deps|)
    ensures DependencyPositions(deps, parentPosition, existing, place, c.out)
  {
    LayoutDependenciesShape(deps, parentId, parentPosition.x + DependencyHorizontalDistance, existing, place,
                            FirstSlotY(parentPosition, |deps|), |deps|, c);
  }

  lemma DependencyNodesPositions(d: DA.DependencyAnalysis, parentId: string, parentPosition: Position,
                                 existing: seq<FlowNode>, place: Placer)
    ensures DependencyPositions(AllDeps(d), parentPosition, existing, place,
                                DependencyNodes(d, parentId, parentPosition, existing, place))
  {
    var deps := AllDeps(d);
    if |deps| > 0 {
      var c := LayoutDependencies(deps, parentId, parentPosition.x + DependencyHorizontalDistance, existing, place,
                                  Cursor(Out([], []), FirstSlotY(parentPosition, |deps|)), |deps|);
      LayoutPositions(deps, parentId, parentPosition, existing, place, c);
      DependencyNodesUnfold(d, parentId, parentPosition, existing, place, c);
    }
  }

  /** A placer that keeps every proposed position. */
  function KeepPosition(p: Position, existing: seq<FlowNode>, width: real, height: real): Position { p }

  /** With nothing around them, the dependency nodes stack 100 apart, centred on the parent, 450 to its right. */
  lemma DependencyNodesStack(d: DA.DependencyAnalysis, parentId: string, parentPosition: Position, k: nat)
    requires k < |AllDeps(d)|
    ensures var o := DependencyNodes(d, parentId, parentPosition, [], KeepPosition);
      |o.nodes| == |AllDeps(d)| && o.nodes[k].position
        == Position(parentPosition.x + 450.0, FirstSlotY(parentPosition, |AllDeps(d)|) + (k as real) * 100.0 + 30.0)
  {
    DependencyNodesPositions(d, parentId, parentPosition, [], KeepPosition);
  }

  /** `createDependencyNodes` */
  method CreateDependencyNodes(d: DA.DependencyAnalysis, parentId: string, parentPosition: Position, existing: seq<FlowNode>)
    returns (nodes: seq<FlowNode>, edges: seq<FlowEdge>)
    ensures Out(nodes, edges) == DependencyNodes(d, parentId, parentPosition, existing, CompactPosition)
  {
    var deps := d.localDependencies + d.externalDependencies;
    if |deps| == 0 {
      return [], [];
    }
    var childX := parentPosition.x + DependencyHorizontalDistance;
    var totalChildHeight := (|deps| as real) * DependencyVerticalSpacing;
    var childY := parentPosition.y - totalChildHeight / 2.0;
    assert deps == AllDeps(d) && childY == FirstSlotY(parentPosition, |deps|);
    nodes, edges, childY := PlaceDependencies(deps, parentId, childX, existing, childY);
  }

  /** The `forEach` of `createDependencyNodes`. */
  method PlaceDependencies(deps: seq<DA.DependencyInfo>, parentId: string, childX: real, existing: seq<FlowNode>, y0: real)
    returns (nodes: seq<FlowNode>, edges: seq<FlowEdge>, childY: real)
    ensures Cursor(Out(nodes, edges), childY) == LayoutDependencies(deps, parentId, childX, existing, CompactPosition, Cursor(Out([], []), y0), |deps|)
  {
    nodes, edges, childY := [], [], y0;
    for i := 0 to |deps|
      invariant Cursor(Out(nodes, edges), childY) == LayoutDependencies(deps, parentId, childX, existing, CompactPosition, Cursor(Out([], []), y0), i)
    {
      var dep := deps[i];
      var depY := childY + DependencyVerticalSpacing / 2.0;
      var safe := FindCompactPosition(Position(childX, depY - DependencyHeight / 2.0), existing + nodes, DependencyWidth, DependencyHeight);
      var nodeId := DependencyNodeId(parentId, dep, i);
      nodes := nodes + [DependencyNode(dep, nodeId, safe)];
      var kind := if DA.IsLocal(dep) then DependencyLocal else DependencyExternal;
      edges := edges + [CreateDataEdge(parentId, nodeId, false, kind)];
      childY := childY + DependencyVerticalSpacing;
    }
  }

  // ---------------------------------------------------------------------------
  // Merging into the base layout
  // ---------------------------------------------------------------------------

  /** `baseNodes.find(n => n.id === id)`: the first node with the id. */
  function FindNode(nodes: seq<FlowNode>, id: string): (r: Option<FlowNode>)
    ensures r.Some? ==> r.value in nodes && r.value.id == id
    ensures r.None? <==> forall k :: 0 <= k < |nodes| ==> nodes[k].id != id
  {
    if nodes == [] then None
    else if nodes[0].id == id then Some(nodes[0])
    else FindNode(nodes[1..], id)
  }

  /** A way to lay out the dependency nodes of one file next to a position, clear of the nodes so far. */
  type Creator = (DA.DependencyAnalysis, string, Position, seq<FlowNode>) -> Out

  /** `createDependencyNodes` with `findCompactPosition` as the placer. */
  function CreateCompact(d: DA.DependencyAnalysis, parentId: string, parentPosition: Position, existing: seq<FlowNode>): Out {
    DependencyNodes(d, parentId, parentPosition, existing, CompactPosition)
  }

  /**
    `mergeDependencyNodes` over the first `i` entries of the analysis map,
    in insertion order: an entry whose key is no base node adds nothing.
   */
  function MergeFrom(base: seq<FlowNode>, results: seq<(string, DA.DependencyAnalysis)>, create: Creator, i: nat): Out
    requires i <= |results|
  {
    if i == 0 then Out([], [])
    else
      var prev := MergeFrom(base, results, create, i - 1);
      var (fileNodeId, depData) := results[i - 1];
      match FindNode(base, fileNodeId)
      case None => prev
      case Some(fileNode) =>
        var o := create(depData, fileNodeId, fileNode.position, base + prev.nodes);
        Out(prev.nodes + o.nodes, prev.edges + o.edges)
  }

  function Merged(base: seq<FlowNode>, results: seq<(string, DA.DependencyAnalysis)>): Out {
    MergeFrom(base, results, CreateCompact, |results|)
  }

  /** The number of dependencies of the first `i` entries whose key is a base node. */
  function FoundDeps(base: seq<FlowNode>, results: seq<(string, DA.DependencyAnalysis)>, i: nat): nat
    requires i <= |results|
  {
    if i == 0 then 0
    else FoundDeps(base, results, i - 1) + (if FindNode(base, results[i - 1].0).Some? then |AllDeps(results[i - 1].1)| else 0)
  }

  /** Some base node has the id. */
  predicate IsBaseId(base: seq<FlowNode>, id: string) {
    exists k :: 0 <= k < |base| && base[k].id == id
  }

  /** One node and one edge per dependency, every edge from the parent. */
  predicate OnePerDependency(o: Out, d: DA.DependencyAnalysis, parentId: string) {
    |o.nodes| == |AllDeps(d)| && |o.edges| == |AllDeps(d)|
    && forall k :: 0 <= k < |o.edges| ==> o.edges[k].source == parentId
  }

  /**
    For a creator that gives one node and one edge per dependency: one
    dependency node and one edge per dependency of an entry whose key is a
    base node, and every edge starts at such a base node.
   */
  lemma {:induction false} MergeFromShape(base: seq<FlowNode>, results: seq<(string, DA.DependencyAnalysis)>, create: Creator, i: nat)
    requires i <= |results|
    requires forall d, id, pos, ex :: OnePerDependency(create(d, id, pos, ex), d, id)
    ensures var o := MergeFrom(base, results, create, i);
      |o.nodes| == FoundDeps(base, results, i) && |o.edges| == FoundDeps(base, results, i)
      && forall k :: 0 <= k < |o.edges| ==> IsBaseId(base, o.edges[k].source)
  {
    if i > 0 {
      var prev := MergeFrom(base, results, create, i - 1);
      MergeFromShape(base, results, create, i - 1);
      var key := results[i - 1].0;
      var found := FindNode(base, key);
      if found.Some? {
        var o := create(results[i - 1].1, key, found.value.position, base + prev.nodes);
        assert OnePerDependency(o, results[i - 1].1, key);
        var k0 :| 0 <= k0 < |base| && base[k0] == found.value;
        EdgesFromBase(base, prev.edges, o.edges, key);
      }
    }
  }

  /**
    The merge holds one node and one edge per dependency of every analysed
    file that has a node in the base layout, and each edge starts at one.
   */
  lemma MergedShape(base: seq<FlowNode>, results: seq<(string, DA.DependencyAnalysis)>)
    ensures var o := Merged(base, results);
      |o.nodes| == FoundDeps(base, results, |results|) && |o.edges| == |o.nodes|
      && forall k :: 0 <= k < |o.edges| ==> IsBaseId(base, o.edges[k].source)
  {
    forall d, id, pos, ex ensures OnePerDependency(CreateCompact(d, id, pos, ex), d, id) {
      DependencyNodesShape(d, id, pos, ex, CompactPosition);
    }
    MergeFromShape(base, results, CreateCompact, |results|);
  }

  lemma EdgesFromBase(base: seq<FlowNode>, before: seq<FlowEdge>, added: seq<FlowEdge>, source: string)
    requires IsBaseId(base, source)
    requires forall k :: 0 <= k < |before| ==> IsBaseId(base, before[k].source)
    requires forall k :: 0 <= k < |added| ==> added[k].source == source
    ensures forall k :: 0 <= k < |before + added| ==> IsBaseId(base, (before + added)[k].source)
  {
    var edges := before + added;
    forall k | 0 <= k < |edges| ensures IsBaseId(base, edges[k].source) {
      if k >= |before| {
        assert edges[k] == added[k - |before|];
      } else {
        assert edges[k] == before[k];
      }
    }
  }

  /** `mergeDependencyNodes` */
  method MergeDependencyNodes(base: seq<FlowNode>, results: seq<(string, DA.DependencyAnalysis)>)
    returns (dependencyNodes: seq<FlowNode>, dependencyEdges: seq<FlowEdge>)
    ensures Out(dependencyNodes, dependencyEdges) == Merged(base, results)
  {
    dependencyNodes, dependencyEdges := [], [];
    for i := 0 to |results|
      invariant Out(dependencyNodes, dependencyEdges) == MergeFrom(base, results, CreateCompact, i)
    {
      var (fileNodeId, depData) := results[i];
      var fileNode := FindNode(base, fileNodeId);
      if fileNode.Some? {
        var allExistingNodes := base + dependencyNodes;
        var nodes, edges := CreateDependencyNodes(depData, fileNodeId, fileNode.value.position, allExistingNodes);
        dependencyNodes := dependencyNodes + nodes;
        dependencyEdges := dependencyEdges + edges;
      }
    }
  }
}
