/**
  The analysis page: the file and folder counts of the project tree and the
  summary shown above the views.
 */
module AnalyzePage {
  import opened Wrappers
  import PA = ProjectAnalyzer

  datatype Counts = Counts(files: nat, folders: nat)

  function Add(a: Counts, b: Counts): Counts {
    Counts(a.files + b.files, a.folders + b.folders)
  }

  /**
    `countItems`: a file has no children and counts nothing; a folder counts
    each child file once and each child folder once plus what that folder
    counts.
   */
  function CountItems(n: PA.Node): Counts
    decreases n, 1
  {
    if n.File? then Counts(0, 0) else CountChildren(n, |n.children|)
  }

  /** What the first `i` children of a folder add up to. */
  function CountChildren(n: PA.Node, i: nat): Counts
    requires n.Folder? && i <= |n.children|
    decreases n, 0, i
  {
    if i == 0 then Counts(0, 0)
    else
      var child := n.children[i - 1];
      Add(CountChildren(n, i - 1), if child.File? then Counts(1, 0) else Add(Counts(0, 1), CountItems(child)))
  }

  /** `countItems` as the source writes it: a loop over the children that recurses into folders. */
  method CountItemsLoop(n: PA.Node) returns (c: Counts)
    ensures c == CountItems(n)
    decreases n
  {
    if n.File? {
      return Counts(0, 0);
    }
    var files: nat := 0;
    var folders: nat := 0;
    var i := 0;
    while i < |n.children|
      invariant i <= |n.children|
      invariant Counts(files, folders) == CountChildren(n, i)
    {
      var child := n.children[i];
      if child.File? {
        files := files + 1;
      } else {
        folders := folders + 1;
        var childCounts := CountItemsLoop(child);
        files := files + childCounts.files;
        folders := folders + childCounts.folders;
      }
      i := i + 1;
    }
    c := Counts(files, folders);
  }

  // ---------------------------------------------------------------------------
  // The nodes below a node
  // ---------------------------------------------------------------------------

  /** Every node strictly below `n`, each child followed by what is below it. */
  function Below(n: PA.Node): seq<PA.Node>
    decreases n, 1
  {
    if n.File? then [] else BelowChildren(n, |n.children|)
  }

  function BelowChildren(n: PA.Node, i: nat): seq<PA.Node>
    requires n.Folder? && i <= |n.children|
    decreases n, 0, i
  {
    if i == 0 then []
    else BelowChildren(n, i - 1) + [n.children[i - 1]] + Below(n.children[i - 1])
  }

  function Files(s: seq<PA.Node>): nat {
    if s == [] then 0 else Files(s[..|s| - 1]) + (if s[|s| - 1].File? then 1 else 0)
  }

  function Folders(s: seq<PA.Node>): nat {
    if s == [] then 0 else Folders(s[..|s| - 1]) + (if s[|s| - 1].Folder? then 1 else 0)
  }

  lemma {:induction false} FilesAppend(a: seq<PA.Node>, b: seq<PA.Node>)
    ensures Files(a + b) == Files(a) + Files(b) && Folders(a + b) == Folders(a) + Folders(b)
    decreases |b|
  {
    if b == [] {
      assert a + b == a;
    } else {
      var p := b[..|b| - 1];
      assert (a + b)[..|a + b| - 1] == a + p;
      assert (a + b)[|a + b| - 1] == b[|b| - 1];
      FilesAppend(a, p);
    }
  }

  /**
    The counts are exactly the files and the folders below the node: the
    node itself is never counted, and every node below it is counted once.
   */
  lemma {:induction false} CountsAreBelow(n: PA.Node)
    ensures CountItems(n) == Counts(Files(Below(n)), Folders(Below(n)))
    ensures CountItems(n).files + CountItems(n).folders == |Below(n)|
    decreases n, 1
  {
    if n.Folder? {
      CountsAreBelowChildren(n, |n.children|);
    }
  }

  lemma {:induction false} CountsAreBelowChildren(n: PA.Node, i: nat)
    requires n.Folder? && i <= |n.children|
    ensures CountChildren(n, i) == Counts(Files(BelowChildren(n, i)), Folders(BelowChildren(n, i)))
    ensures CountChildren(n, i).files + CountChildren(n, i).folders == |BelowChildren(n, i)|
    decreases n, 0, i
  {
    if i > 0 {
      var child := n.children[i - 1];
      CountsAreBelowChildren(n, i - 1);
      CountsAreBelow(child);
      ChildStep(BelowChildren(n, i - 1), child, Below(child));
    }
  }

  /** Appending a child and what is below it adds the child's own count to the counts of what is below. */
  lemma ChildStep(p: seq<PA.Node>, child: PA.Node, below: seq<PA.Node>)
    requires child.File? ==> below == []
    ensures Files(p + [child] + below) == Files(p) + (if child.File? then 1 else 0) + Files(below)
    ensures Folders(p + [child] + below) == Folders(p) + (if child.Folder? then 1 else 0) + Folders(below)
    ensures |p + [child] + below| == |p| + 1 + |below|
  {
    FilesAppend(p + [child], below);
    FilesAppend(p, [child]);
    assert [child][..0] == [];
  }

  /** A file, or a folder without children, counts (0, 0). */
  lemma NothingBelow(n: PA.Node)
    requires n.File? || n.children == []
    ensures CountItems(n) == Counts(0, 0)
  {
  }

  // ---------------------------------------------------------------------------
  // The page summary
  // ---------------------------------------------------------------------------

  /** The analysis response as the page holds it. */
  datatype AnalysisResponse = AnalysisResponse(success: bool, data: Option<PA.ProjectAnalysis>)

  datatype ProjectStats = ProjectStats(
    totalFiles: nat, totalFolders: nat, projectName: string, hasAppRouter: bool,
    routeCount: nat, apiEndpoints: nat, dynamicRoutes: nat, routeGroups: nat)

  const UnknownProject := "Unknown Project"

  const NoStats := ProjectStats(0, 0, UnknownProject, false, 0, 0, 0, 0)

  /**
    `getProjectStats`: the empty summary without a successful response that
    has a structure; otherwise the counts of the tree, its name (or the
    fallback for an empty one) and the figures of the insights.
   */
  function GetProjectStats(analysisData: Option<AnalysisResponse>): (r: ProjectStats)
    ensures (analysisData.None? || !analysisData.value.success || analysisData.value.data.None?) ==> r == NoStats
    ensures analysisData.Some? && analysisData.value.success && analysisData.value.data.Some? ==>
      var d := analysisData.value.data.value;
      r.totalFiles + r.totalFolders == |Below(d.structure)|
      && (r.projectName == UnknownProject <==> d.structure.name == "" || d.structure.name == UnknownProject)
      && r.hasAppRouter == d.insights.appRouterDetected
      && r.dynamicRoutes == d.insights.routePatterns.dynamic
  {
    if analysisData.None? || !analysisData.value.success || analysisData.value.data.None? then NoStats
    else
      var d := analysisData.value.data.value;
      var counts := CountItems(d.structure);
      CountsAreBelow(d.structure);
      ProjectStats(counts.files, counts.folders,
                   if d.structure.name != "" then d.structure.name else UnknownProject,
                   d.insights.appRouterDetected, d.insights.routeCount, d.insights.apiEndpointCount,
                   d.insights.routePatterns.dynamic, d.insights.routePatterns.routeGroups)
  }

  /** For a successful response the summary counts the files and folders below the root and copies the route figures. */
  lemma StatsOfAnalysis(a: PA.ProjectAnalysis)
    ensures var s := GetProjectStats(Some(AnalysisResponse(true, Some(a))));
      s.totalFiles == Files(Below(a.structure)) && s.totalFolders == Folders(Below(a.structure))
      && s.routeCount == a.insights.routeCount && s.apiEndpoints == a.insights.apiEndpointCount
      && s.routeGroups == a.insights.routePatterns.routeGroups
  {
    CountsAreBelow(a.structure);
  }
}
