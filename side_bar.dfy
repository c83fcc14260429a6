/**
  The project sidebar: each folder lists its child folders by name and then
  its child files by name; at the root the top-level "app" folders are left
  out, since the explorer shows them.
 */
module SideBar {
  import opened Strings
  import PA = ProjectAnalyzer

  function NodeName(n: PA.Node): string {
    n.name
  }

  predicate IsFolder(n: PA.Node) {
    n.Folder?
  }

  predicate IsFile(n: PA.Node) {
    n.File?
  }

  /** Kept at the root: everything but a folder named "app". */
  predicate NotAppFolder(n: PA.Node) {
    !(n.Folder? && n.name == "app")
  }

  /** `filter`: the elements satisfying `p`, in their order. */
  function Filter(s: seq<PA.Node>, p: PA.Node -> bool): (r: seq<PA.Node>)
    ensures |r| <= |s|
    ensures forall k :: 0 <= k < |r| ==> p(r[k])
  {
    if s == [] then [] else (if p(s[0]) then [s[0]] else []) + Filter(s[1..], p)
  }

  /** An element is kept exactly when it is there and satisfies the predicate, as often as it is there. */
  lemma {:induction false} FilterCount(s: seq<PA.Node>, p: PA.Node -> bool, x: PA.Node)
    ensures multiset(Filter(s, p))[x] == if p(x) then multiset(s)[x] else 0
  {
    if s != [] {
      var head := if p(s[0]) then [s[0]] else [];
      FilterCount(s[1..], p, x);
      assert s == [s[0]] + s[1..];
      assert multiset(s) == multiset{s[0]} + multiset(s[1..]);
      assert multiset(Filter(s, p)) == multiset(head) + multiset(Filter(s[1..], p));
    }
  }

  /** Every node is a folder or a file, so the two groups together are the children. */
  lemma FoldersAndFiles(s: seq<PA.Node>)
    ensures multiset(Filter(s, IsFolder)) + multiset(Filter(s, IsFile)) == multiset(s)
  {
    forall x ensures (multiset(Filter(s, IsFolder)) + multiset(Filter(s, IsFile)))[x] == multiset(s)[x] {
      FilterCount(s, IsFolder, x);
      FilterCount(s, IsFile, x);
    }
  }

  /** Folders sorted by name, followed by files sorted by name. */
  function FoldersFirst(cs: seq<PA.Node>): seq<PA.Node> {
    SortBy(Filter(cs, IsFolder), NodeName) + SortBy(Filter(cs, IsFile), NodeName)
  }

  /** `sortedChildren` of a tree node: a file has no children and lists nothing. */
  function SortedChildren(n: PA.Node): seq<PA.Node> {
    if n.File? then [] else FoldersFirst(n.children)
  }

  /** The children the sidebar lists at its root. */
  function RootChildren(structure: PA.Node): seq<PA.Node> {
    if structure.File? then [] else FoldersFirst(Filter(structure.children, NotAppFolder))
  }

  /** `filteredStructure`: the root with its listed children. */
  function FilteredStructure(structure: PA.Node): PA.Node {
    if structure.File? then structure else structure.(children := RootChildren(structure))
  }

  /**
    The listing is a rearrangement of the children; its first part, as long
    as there are folders, holds the folders in name order, and the rest the
    files in name order.
   */
  lemma FoldersFirstShape(cs: seq<PA.Node>)
    ensures var r := FoldersFirst(cs); var p := |Filter(cs, IsFolder)|;
      multiset(r) == multiset(cs) && |r| == |cs| && p <= |r|
      && (forall k :: 0 <= k < p ==> r[k].Folder?)
      && (forall k :: p <= k < |r| ==> r[k].File?)
      && SortedBy(r[..p], NodeName) && SortedBy(r[p..], NodeName)
  {
    var folders: seq<PA.Node>, files: seq<PA.Node> := Filter(cs, IsFolder), Filter(cs, IsFile);
    var a: seq<PA.Node>, b: seq<PA.Node> := SortBy(folders, NodeName), SortBy(files, NodeName);
    var r: seq<PA.Node> := a + b;
    FoldersAndFiles(cs);
    SortedGroup(folders, IsFolder);
    SortedGroup(files, IsFile);
    assert |r| == |cs| by {
      assert |multiset(r)| == |multiset(cs)|;
    }
    assert r[..|a|] == a && r[|a|..] == b;
  }

  /** Sorting a group keeps it a group of the same kind and puts it in name order. */
  lemma SortedGroup(g: seq<PA.Node>, p: PA.Node -> bool)
    requires forall k :: 0 <= k < |g| ==> p(g[k])
    ensures var a := SortBy(g, NodeName);
      (forall k :: 0 <= k < |a| ==> p(a[k])) && SortedBy(a, NodeName)
  {
    var a: seq<PA.Node> := SortBy(g, NodeName);
    SortBySorted(g, NodeName);
    forall k | 0 <= k < |a| ensures p(a[k]) {
      assert a[k] in multiset(g);
      var j :| 0 <= j < |g| && g[j] == a[k];
    }
  }

  /** A node's listing: a rearrangement of its children, folders first, each group by name. */
  lemma SortedChildrenShape(n: PA.Node)
    requires n.Folder?
    ensures var r := SortedChildren(n); var p := |Filter(n.children, IsFolder)|;
      multiset(r) == multiset(n.children) && p <= |r|
      && (forall k :: 0 <= k < p ==> r[k].Folder?)
      && (forall k :: p <= k < |r| ==> r[k].File?)
      && SortedBy(r[..p], NodeName) && SortedBy(r[p..], NodeName)
  {
    FoldersFirstShape(n.children);
  }

  /** A folder without children lists nothing. */
  lemma EmptyFolder(n: PA.Node)
    requires n.Folder? && n.children == []
    ensures SortedChildren(n) == []
  {
  }

  /**
    At the root exactly the top-level "app" folders go: every other child is
    listed as it is, so the "app" folders further down stay in its subtree,
    and no top-level "app" folder is listed.
   */
  lemma RootChildrenShape(structure: PA.Node)
    requires structure.Folder?
    ensures var r := RootChildren(structure);
      (forall x :: multiset(r)[x] == if NotAppFolder(x) then multiset(structure.children)[x] else 0)
      && (forall k :: 0 <= k < |r| ==> NotAppFolder(r[k]))
  {
    var kept: seq<PA.Node> := Filter(structure.children, NotAppFolder);
    var r: seq<PA.Node> := RootChildren(structure);
    FoldersFirstShape(kept);
    forall x ensures multiset(r)[x] == if NotAppFolder(x) then multiset(structure.children)[x] else 0 {
      FilterCount(structure.children, NotAppFolder, x);
    }
    forall k | 0 <= k < |r| ensures NotAppFolder(r[k]) {
      assert r[k] in multiset(r);
      FilterCount(structure.children, NotAppFolder, r[k]);
    }
  }

  /** The root listing has the same order as every other listing: folders first, each group by name. */
  lemma RootChildrenOrder(structure: PA.Node)
    requires structure.Folder?
    ensures var r := RootChildren(structure); var p := |Filter(Filter(structure.children, NotAppFolder), IsFolder)|;
      p <= |r|
      && (forall k :: 0 <= k < p ==> r[k].Folder?)
      && (forall k :: p <= k < |r| ==> r[k].File?)
      && SortedBy(r[..p], NodeName) && SortedBy(r[p..], NodeName)
  {
    FoldersFirstShape(Filter(structure.children, NotAppFolder));
  }

  /** The sidebar's root keeps every field of the structure but its children. */
  lemma FilteredStructureShape(structure: PA.Node)
    requires structure.Folder?
    ensures var f := FilteredStructure(structure);
      f.(children := structure.children) == structure && f.children == RootChildren(structure)
  {
  }
}
