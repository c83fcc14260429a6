/**
  The explorer component: it shows the project root with only its "app"
  folder, starts with the first two layers open, and draws the layout of
  that structure with the dependency results merged in.
 */
module CodeFlowView {
  import opened Wrappers
  import PA = ProjectAnalyzer
  import FL = FlowLayout
  import DA = DependencyAnalyzer
  import ES = ExplorerState
  import LC = LegacyCodeFlow

  predicate IsAppFolder(n: PA.Node) {
    n.Folder? && n.name == "app"
  }

  /** `children.find(child => child.type === "folder" && child.name === "app")` */
  function FindApp(cs: seq<PA.Node>): (r: Option<PA.Node>)
    ensures r.Some? ==> IsAppFolder(r.value) && r.value in cs
    ensures r.None? <==> forall k :: 0 <= k < |cs| ==> !IsAppFolder(cs[k])
  {
    if cs == [] then None
    else if IsAppFolder(cs[0]) then Some(cs[0])
    else FindApp(cs[1..])
  }

  /** The folder found is the first "app" folder among the children. */
  lemma {:induction false} FindAppFirst(cs: seq<PA.Node>)
    requires FindApp(cs).Some?
    ensures exists k :: 0 <= k < |cs| && cs[k] == FindApp(cs).value && forall j :: 0 <= j < k ==> !IsAppFolder(cs[j])
  {
    if !IsAppFolder(cs[0]) {
      var tail := cs[1..];
      FindAppFirst(tail);
      var k :| 0 <= k < |tail| && tail[k] == FindApp(tail).value && forall j :: 0 <= j < k ==> !IsAppFolder(tail[j]);
      assert cs[k + 1] == FindApp(cs).value;
      assert forall j :: 0 < j < k + 1 ==> cs[j] == tail[j - 1];
    } else {
      assert cs[0] == FindApp(cs).value;
    }
  }

  /**
    `filteredData`: nothing without a structure; the root with its first
    "app" folder as its only child when there is one; the structure as it
    is otherwise.
   */
  function FilteredData(structure: Option<PA.Node>): Option<PA.Node> {
    match structure
    case None => None
    case Some(root) =>
      if !root.Folder? then Some(root)
      else
        match FindApp(root.children)
        case None => Some(root)
        case Some(app) => Some(root.(children := [app]))
  }

  /**
    A structure stays present; with an "app" folder the root keeps every
    field but its children, which become that folder alone; without one
    nothing changes.
   */
  lemma FilteredShape(structure: Option<PA.Node>)
    ensures FilteredData(structure).Some? <==> structure.Some?
    ensures structure.Some? && structure.value.Folder? && FindApp(structure.value.children).Some? ==>
      var root := structure.value;
      var f := FilteredData(structure).value;
      f.Folder? && f.children == [FindApp(root.children).value] && IsAppFolder(f.children[0])
      && f.name == root.name && f.isAppRouter == root.isAppRouter && f.routing == root.routing
      && f.routePath == root.routePath && f.specialFiles == root.specialFiles
      && f.fullPath == root.fullPath && f.relativePath == root.relativePath
    ensures structure.Some? && (!structure.value.Folder? || FindApp(structure.value.children).None?) ==>
      FilteredData(structure) == structure
  {
  }

  /** Filtering what is already filtered changes nothing. */
  lemma FilteredIdempotent(structure: Option<PA.Node>)
    ensures FilteredData(FilteredData(structure)) == FilteredData(structure)
  {
    if structure.Some? && structure.value.Folder? {
      var app := FindApp(structure.value.children);
      if app.Some? {
        assert FindApp([app.value]) == app;
      }
    }
  }

  // ---------------------------------------------------------------------------
  // The component's state
  // ---------------------------------------------------------------------------

  /** The expanded folders, the "all expanded" flag and the dependency results. */
  datatype Explorer = Explorer(expanded: set<string>, allExpanded: bool, results: ES.Results)

  /** A fresh component: nothing expanded and no results. */
  const Initial: Explorer := Explorer({}, false, [])

  /** The effect run whenever the filtered data changes: back to the first two layers. */
  function OnData(filtered: Option<PA.Node>, e: Explorer): (r: Explorer)
    ensures filtered.Some? ==> r.expanded == ES.FirstTwoLayers && !r.allExpanded && r.results == e.results
    ensures filtered.None? ==> r == e
  {
    if filtered.Some? then e.(expanded := {"root", "root-app"}, allExpanded := false) else e
  }

  function Toggle(e: Explorer, nodeId: string): Explorer {
    e.(expanded := ES.Toggle(e.expanded, nodeId))
  }

  /** `expandAll` on the filtered structure; without one nothing happens. */
  function ExpandAll(filtered: Option<PA.Node>, e: Explorer): Explorer {
    if filtered.Some? then e.(expanded := ES.ExpandAll(filtered, e.expanded), allExpanded := true) else e
  }

  function CollapseAll(e: Explorer): Explorer {
    e.(expanded := ES.CollapseAll(), allExpanded := false)
  }

  function HandleDependencyAnalysis(e: Explorer, fileNodeId: string, data: Option<DA.DependencyAnalysis>): Explorer {
    e.(results := ES.HandleDependencyAnalysis(e.results, fileNodeId, data))
  }

  /**
    `allNodes` and `allEdges`: the graph of the filtered structure, whose
    root keeps the project path stored on the structure's root.
   */
  function Graph(structure: Option<PA.Node>, projectRoot: string, e: Explorer): FL.Out {
    ES.GraphData(FilteredData(structure), projectRoot, e.expanded, e.results)
  }

  /**
    Toggling only touches the open folders, flipping the one id; a
    dependency result only touches the results, and only under its file.
   */
  lemma ExplorerUpdates(e: Explorer, nodeId: string, fileNodeId: string, data: Option<DA.DependencyAnalysis>, other: string)
    ensures var t := Toggle(e, nodeId);
      t.results == e.results && t.allExpanded == e.allExpanded
      && (nodeId in t.expanded <==> nodeId !in e.expanded)
      && forall x :: x != nodeId ==> (x in t.expanded <==> x in e.expanded)
    ensures var h := HandleDependencyAnalysis(e, fileNodeId, data);
      h.expanded == e.expanded && h.allExpanded == e.allExpanded
      && ES.Lookup(h.results, other) == if other == fileNodeId then data else ES.Lookup(e.results, other)
  {
    ES.HandleLookup(e.results, fileNodeId, data, other);
  }

  /**
    No structure, no graph; otherwise the graph starts with the layout of
    the filtered structure and adds as many nodes as edges after it.
   */
  lemma GraphShape(structure: Option<PA.Node>, projectRoot: string, e: Explorer)
    ensures structure.None? ==> Graph(structure, projectRoot, e) == FL.Out([], [])
    ensures structure.Some? ==>
      var base := FL.TreeLayout(FilteredData(structure).value, e.expanded, projectRoot);
      var o := Graph(structure, projectRoot, e);
      |base.nodes| <= |o.nodes| && o.nodes[..|base.nodes|] == base.nodes
      && |base.edges| <= |o.edges| && o.edges[..|base.edges|] == base.edges
      && |o.nodes| - |base.nodes| == |o.edges| - |base.edges|
  {
    ES.GraphDataShape(FilteredData(structure), projectRoot, e.expanded, e.results);
  }

  /**
    Collapsing undoes "expand all": it comes back to what the data effect
    set, and only the flag and the open folders ever change.
   */
  lemma CollapseAfterExpand(filtered: Option<PA.Node>, e: Explorer)
    requires filtered.Some?
    ensures CollapseAll(ExpandAll(filtered, e)) == OnData(filtered, e)
    ensures ExpandAll(filtered, e).allExpanded && ExpandAll(filtered, e).results == e.results
  {
  }

  lemma {:induction false} RootAppId()
    ensures FL.CreateNodeId(FL.ChildPath("root", "app")) == "root-app"
  {
    var p := "root-app";
    assert FL.ChildPath("root", "app") == p;
    assert forall i :: 0 <= i < |p| ==> FL.IdChar(p[i]);
    assert FL.NoDoubleDash(p);
    FL.CreateNodeIdFixed(p);
  }

  lemma {:induction false} RootId()
    ensures FL.CreateNodeId("root") == "root"
  {
    FL.CreateNodeIdFixed("root");
  }

  /** A root whose only child is the "app" folder has the first two layers as its first layer. */
  lemma AppOnlyFirstLayer(f: PA.Node, app: PA.Node)
    requires f.Folder? && f.children == [app] && IsAppFolder(app)
    ensures LC.FirstLayer(f) == ES.FirstTwoLayers
  {
    RootAppId();
    RootId();
    forall id ensures id in LC.FirstLayer(f) <==> id in ES.FirstTwoLayers {
      LC.FirstLayerExpandsTopFolders(f, id);
      assert app in f.children;
    }
  }

  /**
    When the project has an "app" folder, the two layers the view starts
    with are exactly the root and its one child folder, as they are laid
    out.
   */
  lemma FirstTwoLayersOfFiltered(structure: Option<PA.Node>)
    requires structure.Some? && structure.value.Folder? && FindApp(structure.value.children).Some?
    ensures LC.FirstLayer(FilteredData(structure).value) == ES.FirstTwoLayers
  {
    var app := FindApp(structure.value.children).value;
    AppOnlyFirstLayer(FilteredData(structure).value, app);
  }

  /** "Expand all" keeps the first two layers open. */
  lemma ExpandAllKeepsFirstTwo(structure: Option<PA.Node>, current: set<string>)
    requires structure.Some? && structure.value.Folder? && FindApp(structure.value.children).Some?
    ensures ES.FirstTwoLayers <= ES.ExpandAll(FilteredData(structure), current)
  {
    var app := FindApp(structure.value.children).value;
    var f := FilteredData(structure).value;
    assert f.children == [app];
    RootAppId();
    ES.FolderIdsComplete(app, "root", []);
    assert ES.TopIds(f.children, 1) == ES.FolderIds(app, "root", false);
  }
}
