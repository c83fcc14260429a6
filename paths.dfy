/**
  The parts of Node's POSIX `path` module that the analysers apply to plain
  strings: `extname`, `parse(..).name`, `dirname` and a two-argument `join`
  of a normalised path with one further segment.
 */
module Paths {
  import opened Strings

  /** Index of the last occurrence of `c` in `s`, if any. */
  function LastIndexOf(s: string, c: char): (r: int)
    ensures -1 <= r < |s|
    ensures r >= 0 ==> s[r] == c && forall k :: r < k < |s| ==> s[k] != c
    ensures r == -1 ==> c !in s
  {
    if s == [] then -1
    else if s[|s| - 1] == c then |s| - 1
    else LastIndexOf(s[..|s| - 1], c)
  }

  /**
    `path.extname` of a name without `/`: from the last dot to the end,
    except that a name without a dot, a name whose only dot leads it, and
    the name ".." have no extension.
   */
  function Extname(name: string): (ext: string)
    ensures ext == "" || ext[0] == '.'
    ensures ext != "" ==> EndsWith(name, ext) && |ext| < |name|
  {
    var d := LastIndexOf(name, '.');
    if d <= 0 || name == ".." then "" else name[d..]
  }

  /** `path.parse(name).name`: the name without its extension. */
  function ParseName(name: string): (base: string)
    ensures base + Extname(name) == name
  {
    name[..|name| - |Extname(name)|]
  }

  /** `name.split(".")[0]`: the text before the first dot. */
  function BeforeFirstDot(name: string): (r: string)
    ensures StartsWith(name, r) && '.' !in r
    ensures |r| < |name| ==> name[|r|] == '.'
  {
    SplitFirst(name, '.');
    Split(name, '.')[0]
  }

  /** Index of the separator `path.dirname` stops at, or -1 (scanning back from the end to index 1). */
  function DirnameEnd(p: string, i: int, matchedSlash: bool): (r: int)
    requires 0 <= i < |p|
    ensures -1 <= r <= i && r != 0
    decreases i
  {
    if i < 1 then -1
    else if p[i] == '/' then (if !matchedSlash then i else DirnameEnd(p, i - 1, matchedSlash))
    else DirnameEnd(p, i - 1, false)
  }

  /** POSIX `path.dirname`. */
  function Dirname(p: string): (r: string)
  {
    if p == [] then "."
    else
      var hasRoot := p[0] == '/';
      var end := DirnameEnd(p, |p| - 1, true);
      if end == -1 then (if hasRoot then "/" else ".")
      else if hasRoot && end == 1 then "//"
      else p[..end]
  }

  /** Every path other than "" and "/" has a strictly shorter parent once "." is read as "". */
  lemma DirnameShrinks(p: string)
    requires p != "" && p != "/"
    ensures var d := Dirname(p); |if d == "." then "" else d| < |p|
  {
  }

  /**
    `path.join(dir, segment).replace(/\\/g, "/")` for a normalised relative
    `dir` and one path segment: the segment on its own when `dir` is empty,
    otherwise the two joined by "/"; backslashes then become slashes.
   */
  function JoinSegment(dir: string, segment: string): (r: string)
    ensures '\\' !in r
    ensures |r| == (if dir == "" then |segment| else |dir| + 1 + |segment|)
  {
    MapChars(if dir == "" then segment else dir + "/" + segment, c => c != '\\', '/')
  }
}
