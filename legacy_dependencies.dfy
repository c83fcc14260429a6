/**
  The older explorer view's dependency nodes: a grid of three columns
  under an analysed file card, one edge from the file to each of them, and
  the updater that adds them at most once per file.
 */
module LegacyDependencies {
  import opened Strings
  import opened Wrappers
  import opened Geometry
  import DA = DependencyAnalyzer
  import FL = FlowLayout
  import FD = FlowDependencies
  import LC = LegacyCodeFlow

  const RowSize: nat := 3
  const NodeSpacing: real := 300.0
  const RowHeight: real := 180.0
  const GridTop: real := 200.0

  /**
    Item `index`: column `index % 3` with the middle column under the file,
    row `index / 3` starting 200 below it.
   */
  function GridPosition(parent: Position, index: nat): (p: Position)
    ensures p.x == parent.x - NodeSpacing || p.x == parent.x || p.x == parent.x + NodeSpacing
    ensures p.y >= parent.y + GridTop
  {
    var row := index / RowSize;
    var col := index % RowSize;
    Position(parent.x + ((col as real) - 1.0) * NodeSpacing, parent.y + GridTop + (row as real) * RowHeight)
  }

  /** Three items on, the grid is one row lower in the same column. */
  lemma GridNextRow(parent: Position, index: nat)
    ensures GridPosition(parent, index + RowSize)
         == Position(GridPosition(parent, index).x, GridPosition(parent, index).y + RowHeight)
  {
    assert (index + RowSize) / RowSize == index / RowSize + 1;
    assert (index + RowSize) % RowSize == index % RowSize;
  }

  /** No two items share a place. */
  lemma GridDistinct(parent: Position, i: nat, j: nat)
    requires i != j
    ensures GridPosition(parent, i) != GridPosition(parent, j)
  {
  }

  function DependencyCard(parentId: string, parent: Position, dep: DA.DependencyInfo, index: nat): LC.Card {
    LC.Card(FD.DependencyNodeId(parentId, dep, index), GridPosition(parent, index), FL.DependencyData(dep.name, dep))
  }

  /** Green and solid for a local dependency, indigo and dashed otherwise, labelled with the import's type. */
  function DependencyEdge(parentId: string, dep: DA.DependencyInfo, index: nat): LC.Edge {
    var local := DA.IsLocal(dep);
    LC.Edge("edge-" + parentId + "-" + FD.DependencyKey(dep, index), parentId, FD.DependencyNodeId(parentId, dep, index),
            if local then "#10b981" else "#6366f1", 2.0, Some(if local then "0" else "5,5"), Some(dep.kind))
  }

  function GridCards(deps: seq<DA.DependencyInfo>, parentId: string, parent: Position): seq<LC.Card> {
    seq(|deps|, k requires 0 <= k < |deps| => DependencyCard(parentId, parent, deps[k], k))
  }

  function GridEdges(deps: seq<DA.DependencyInfo>, parentId: string, parent: Position): seq<LC.Edge> {
    seq(|deps|, k requires 0 <= k < |deps| => DependencyEdge(parentId, deps[k], k))
  }

  /** `createDependencyNodes`: the local dependencies, then the external ones, each pushed with its edge. */
  method CreateDependencyNodes(d: DA.DependencyAnalysis, parentId: string, parent: Position)
    returns (nodes: seq<LC.Card>, edges: seq<LC.Edge>)
    ensures nodes == GridCards(FD.AllDeps(d), parentId, parent)
    ensures edges == GridEdges(FD.AllDeps(d), parentId, parent)
  {
    var allDeps := d.localDependencies + d.externalDependencies;
    nodes, edges := [], [];
    var index := 0;
    while index < |allDeps|
      invariant index <= |allDeps|
      invariant nodes == GridCards(allDeps[..index], parentId, parent)
      invariant edges == GridEdges(allDeps[..index], parentId, parent)
    {
      var dep := allDeps[index];
      GridSnoc(allDeps, parentId, parent, index);
      nodes := nodes + [DependencyCard(parentId, parent, dep, index)];
      edges := edges + [DependencyEdge(parentId, dep, index)];
      index := index + 1;
    }
    assert allDeps[..index] == allDeps;
  }

  /** The grid of one more dependency is the grid before it with its card and edge appended. */
  lemma GridSnoc(deps: seq<DA.DependencyInfo>, parentId: string, parent: Position, i: nat)
    requires i < |deps|
    ensures GridCards(deps[..i + 1], parentId, parent) == GridCards(deps[..i], parentId, parent) + [DependencyCard(parentId, parent, deps[i], i)]
    ensures GridEdges(deps[..i + 1], parentId, parent) == GridEdges(deps[..i], parentId, parent) + [DependencyEdge(parentId, deps[i], i)]
  {
    assert forall k :: 0 <= k < i ==> deps[..i + 1][k] == deps[..i][k];
  }

  /**
    One card and one edge per dependency, in order: card `k` has the
    dependency's id under the file and its grid place, edge `k` runs from
    the file to it, dashed exactly when the dependency is not local.
   */
  lemma GridShape(deps: seq<DA.DependencyInfo>, parentId: string, parent: Position)
    ensures var nodes := GridCards(deps, parentId, parent);
      var edges := GridEdges(deps, parentId, parent);
      |nodes| == |edges| == |deps|
      && forall k :: 0 <= k < |deps| ==>
           nodes[k].id == FD.DependencyNodeId(parentId, deps[k], k)
           && StartsWith(nodes[k].id, parentId + "-dep-")
           && nodes[k].position == GridPosition(parent, k)
           && edges[k].source == parentId && edges[k].target == nodes[k].id
           && (edges[k].dashArray == Some("5,5") <==> !DA.IsLocal(deps[k]))
  {
    var nodes := GridCards(deps, parentId, parent);
    var edges := GridEdges(deps, parentId, parent);
    forall k | 0 <= k < |deps|
      ensures StartsWith(nodes[k].id, parentId + "-dep-")
      ensures edges[k].dashArray == Some("5,5") <==> !DA.IsLocal(deps[k])
    {
      var p := parentId + "-dep-";
      assert nodes[k].id == p + FD.DependencyKey(deps[k], k);
      assert nodes[k].id[..|p|] == p;
      assert "0" != "5,5";
    }
  }

  // ---------------------------------------------------------------------------
  // Adding them once
  // ---------------------------------------------------------------------------

  /** The view's cards and edges and the set of files already analysed. */
  datatype View = View(nodes: seq<LC.Card>, edges: seq<LC.Edge>, analyzed: set<string>)

  /** `nodes.find(node => node.id === id)` */
  function FindCard(nodes: seq<LC.Card>, id: string): (r: Option<LC.Card>)
    ensures r.Some? ==> r.value in nodes && r.value.id == id
    ensures r.None? <==> forall k :: 0 <= k < |nodes| ==> nodes[k].id != id
  {
    if nodes == [] then None
    else if nodes[0].id == id then Some(nodes[0])
    else FindCard(nodes[1..], id)
  }

  /** Some card's id contains `fileNodeId + "-dep-"`. */
  predicate HasDependencyNodes(nodes: seq<LC.Card>, fileNodeId: string) {
    exists k :: 0 <= k < |nodes| && Contains(nodes[k].id, fileNodeId + "-dep-")
  }

  /** `handleDependencyAnalysis`: the analysed-file guard, then the node updater with its own two guards. */
  function HandleDependencyAnalysis(v: View, fileNodeId: string, d: DA.DependencyAnalysis): (r: View)
    ensures r.analyzed == v.analyzed + {fileNodeId}
    ensures fileNodeId in v.analyzed || FindCard(v.nodes, fileNodeId).None? || HasDependencyNodes(v.nodes, fileNodeId)
            ==> r.nodes == v.nodes && r.edges == v.edges
    ensures |v.nodes| <= |r.nodes| && r.nodes[..|v.nodes|] == v.nodes
    ensures |v.edges| <= |r.edges| && r.edges[..|v.edges|] == v.edges
    ensures |r.nodes| - |v.nodes| == |r.edges| - |v.edges|
    ensures forall k :: |v.nodes| <= k < |r.nodes| ==> StartsWith(r.nodes[k].id, fileNodeId + "-dep-")
  {
    if fileNodeId in v.analyzed then v
    else
      var analyzed := v.analyzed + {fileNodeId};
      match FindCard(v.nodes, fileNodeId)
      case None => View(v.nodes, v.edges, analyzed)
      case Some(file) =>
        if HasDependencyNodes(v.nodes, fileNodeId) then View(v.nodes, v.edges, analyzed)
        else
          var deps := FD.AllDeps(d);
          GridShape(deps, fileNodeId, file.position);
          var nodes := GridCards(deps, fileNodeId, file.position);
          assert (v.nodes + nodes)[..|v.nodes|] == v.nodes;
          assert (v.edges + GridEdges(deps, fileNodeId, file.position))[..|v.edges|] == v.edges;
          View(v.nodes + nodes, v.edges + GridEdges(deps, fileNodeId, file.position), analyzed)
  }

  /**
    The node-id guard alone already stops a second round: once a file's
    dependency nodes are in, a call for the same file leaves the cards and
    edges as they are, even with the analysed set forgotten.
   */
  lemma NoSecondRound(v: View, fileNodeId: string, d: DA.DependencyAnalysis, d': DA.DependencyAnalysis,
                      forgotten: set<string>)
    requires fileNodeId !in forgotten
    requires var r := HandleDependencyAnalysis(v, fileNodeId, d); |r.nodes| > |v.nodes|
    ensures var r := HandleDependencyAnalysis(v, fileNodeId, d);
      var again := HandleDependencyAnalysis(View(r.nodes, r.edges, forgotten), fileNodeId, d');
      again.nodes == r.nodes && again.edges == r.edges
  {
    var r := HandleDependencyAnalysis(v, fileNodeId, d);
    var k := |v.nodes|;
    assert StartsWith(r.nodes[k].id, fileNodeId + "-dep-");
    assert r.nodes[k].id[0..] == r.nodes[k].id;
    ContainsAt(r.nodes[k].id, fileNodeId + "-dep-", 0);
    assert HasDependencyNodes(r.nodes, fileNodeId);
  }
}
