/**
  An abstract, read-only file system: a tree of named directories and files.
  It stands for what `fs.existsSync`, `fs.statSync(..).isFile()`,
  `isDirectory()`, `readdirSync` and `readFileSync` observe. Absolute paths
  are sequences of segments below the root; `path.resolve`, `path.relative`
  and `path.dirname` are given on that representation.
 */
module FileSystem {
  import opened Strings
  import opened Wrappers

  /** A file's content is `None` when reading it fails. Directory entries are in `readdirSync` order. */
  datatype Entry =
    | File(name: string, content: Option<string>)
    | Dir(name: string, entries: seq<Entry>)

  type Path = seq<string>

  /** The first entry of `entries` called `name`. */
  function Child(entries: seq<Entry>, name: string): (r: Option<Entry>)
    ensures r.Some? ==> r.value in entries && r.value.name == name
    ensures r.None? ==> forall e :: e in entries ==> e.name != name
  {
    if entries == [] then None
    else if entries[0].name == name then Some(entries[0])
    else Child(entries[1..], name)
  }

  /** The entry at `p` below `e`. */
  function Lookup(e: Entry, p: Path): (r: Option<Entry>)
    ensures p == [] ==> r == Some(e)
    decreases |p|
  {
    if p == [] then Some(e)
    else match e
      case File(_, _) => None
      case Dir(_, entries) =>
        match Child(entries, p[0])
        case None => None
        case Some(c) => Lookup(c, p[1..])
  }

  /** What `fs.readFileSync` gives: nothing at the path, a failed read, or the text. */
  datatype FileRead = Missing | Unreadable | Content(text: string)

  function ReadFile(root: Entry, p: Path): (r: FileRead)
    ensures r.Missing? <==> !Exists(root, p)
    ensures r.Content? ==> IsFile(root, p)
  {
    match Lookup(root, p)
    case None => Missing
    case Some(Dir(_, _)) => Unreadable
    case Some(File(_, None)) => Unreadable
    case Some(File(_, Some(text))) => Content(text)
  }

  predicate Exists(root: Entry, p: Path) { Lookup(root, p).Some? }

  predicate IsFile(root: Entry, p: Path) { Lookup(root, p).Some? && Lookup(root, p).value.File? }

  predicate IsDirectory(root: Entry, p: Path) { Lookup(root, p).Some? && Lookup(root, p).value.Dir? }

  lemma ExistsKinds(root: Entry, p: Path)
    ensures Exists(root, p) <==> IsFile(root, p) || IsDirectory(root, p)
    ensures !(IsFile(root, p) && IsDirectory(root, p))
  {
  }

  /** Applies one relative path segment: "" and "." stay, ".." goes up (not above the root). */
  function Step(base: Path, segment: string): Path {
    if segment == "" || segment == "." then base
    else if segment == ".." then (if base == [] then [] else base[..|base| - 1])
    else base + [segment]
  }

  function StepAll(base: Path, segments: seq<string>): Path
    decreases |segments|
  {
    if segments == [] then base else StepAll(Step(base, segments[0]), segments[1..])
  }

  /** A path whose segments are all proper names. */
  predicate Normal(p: Path) {
    forall i :: 0 <= i < |p| ==> p[i] != "" && p[i] != "." && p[i] != ".."
  }

  lemma {:induction false} StepAllNormal(base: Path, segments: seq<string>)
    requires Normal(base)
    ensures Normal(StepAll(base, segments))
    decreases |segments|
  {
    if segments != [] {
      var next := Step(base, segments[0]);
      assert Normal(next);
      StepAllNormal(next, segments[1..]);
    }
  }

  /** `path.resolve(base, rel)` for an absolute, normalised `base`. */
  function Resolve(base: Path, rel: string): (r: Path)
  {
    StepAll(if StartsWith(rel, "/") then [] else base, Split(rel, '/'))
  }

  lemma ResolveNormal(base: Path, rel: string)
    requires Normal(base)
    ensures Normal(Resolve(base, rel))
  {
    StepAllNormal(if StartsWith(rel, "/") then [] else base, Split(rel, '/'));
  }

  /** The absolute path written out, as `path.resolve` returns it. */
  function Render(p: Path): (s: string)
    ensures |s| >= 1 && s[0] == '/'
  {
    "/" + Join(p, "/")
  }

  /** `p + ext` on the rendered path: `ext` is glued to the last segment. */
  function AppendExt(p: Path, ext: string): (r: Path)
    ensures ext == "" ==> r == p
    ensures |r| == (if p == [] && ext != "" then 1 else |p|)
  {
    if ext == "" then p
    else if p == [] then [ext]
    else p[..|p| - 1] + [p[|p| - 1] + ext]
  }

  /** `path.dirname` of an absolute path. */
  function Parent(p: Path): (r: Path)
    ensures |r| == if p == [] then 0 else |p| - 1
  {
    if p == [] then [] else p[..|p| - 1]
  }

  /** Length of the longest common prefix. */
  function CommonPrefix(a: Path, b: Path): (n: nat)
    ensures n <= |a| && n <= |b| && a[..n] == b[..n]
    ensures n < |a| && n < |b| ==> a[n] != b[n]
  {
    if a == [] || b == [] || a[0] != b[0] then 0
    else
      var k := CommonPrefix(a[1..], b[1..]);
      assert a[..k + 1] == [a[0]] + a[1..][..k];
      assert b[..k + 1] == [b[0]] + b[1..][..k];
      1 + k
  }

  /** `path.relative(from, to)` for two absolute, normalised paths. */
  function Relative(from: Path, to: Path): (r: string)
  {
    var n := CommonPrefix(from, to);
    Join(Repeat("..", |from| - n) + to[n..], "/")
  }

  /** The relative path from an ancestor is the rest of the path. */
  lemma RelativeBelow(from: Path, rest: Path)
    ensures Relative(from, from + rest) == Join(rest, "/")
  {
    var to := from + rest;
    var n := CommonPrefix(from, to);
    assert n == |from|;
    assert to[n..] == rest;
    assert Repeat("..", |from| - n) + to[n..] == rest;
  }
}
