/**
  The regular expressions the analysers search source text with, written
  as deterministic matchers. Every `\s+` or `\w+` run is followed by a
  character outside its class, so the greedy run is the only way a match
  can continue and no backtracking choice is lost.
 */
module Patterns {
  import opened Strings
  import opened Wrappers

  /** `p` at the start of `t`, letters compared case-insensitively when `fold` is set (the `i` flag). */
  predicate Lit(t: string, p: string, fold: bool) {
    if fold then StartsWithFold(t, p) else StartsWith(t, p)
  }

  /** `kw\s+` at the start of `t`: what follows the keyword and its spaces. */
  function KeywordSpaces(t: string, kw: string, fold: bool): (r: Option<string>)
    ensures r.Some? ==> |r.value| < |t| - |kw| && t[|t| - |r.value|..] == r.value
  {
    if !Lit(t, kw, fold) then None
    else
      var n := LeadingSpaces(t[|kw|..]);
      if n == 0 then None else Some(t[|kw| + n..])
  }

  /** The text matches `m` at some position (an unanchored regular-expression test). */
  predicate Search(t: string, m: string -> bool)
    decreases |t|
  {
    m(t) || (t != [] && Search(t[1..], m))
  }

  /** Searching accepts exactly when some suffix matches. */
  lemma {:induction false} SearchAt(t: string, m: string -> bool)
    ensures Search(t, m) <==> exists i :: 0 <= i <= |t| && m(t[i..])
    decreases |t|
  {
    assert t[0..] == t;
    if t != [] {
      SearchAt(t[1..], m);
      if Search(t[1..], m) {
        var i :| 0 <= i <= |t[1..]| && m(t[1..][i..]);
        assert t[1..][i..] == t[i + 1..];
        assert m(t[i + 1..]);
      }
      forall i | 1 <= i <= |t| && m(t[i..]) ensures Search(t[1..], m) {
        assert t[1..][i - 1..] == t[i..];
      }
    }
  }

  /** `\s*\(` at the start of `t`. */
  predicate OpenParen(t: string) {
    var k := LeadingSpaces(t);
    k < |t| && t[k] == '('
  }

  /** `function\s+NAME\s*\(`, case-insensitive. */
  predicate FunctionCall(t: string, name: string) {
    match KeywordSpaces(t, "function", true)
    case None => false
    case Some(u) => Lit(u, name, true) && OpenParen(u[|name|..])
  }

  /** `export\s+(async\s+)?function\s+NAME\s*\(` with the `i` flag, matched at the start of `t`. */
  predicate ExportFunctionFold(t: string, name: string) {
    match KeywordSpaces(t, "export", true)
    case None => false
    case Some(u) =>
      FunctionCall(u, name)
      || (match KeywordSpaces(u, "async", true)
          case None => false
          case Some(v) => FunctionCall(v, name))
  }

  /** `export\s+async\s+function\s+NAME` */
  predicate ExportAsyncFunction(t: string, name: string) {
    match KeywordSpaces(t, "export", false)
    case None => false
    case Some(u) =>
      match KeywordSpaces(u, "async", false)
      case None => false
      case Some(v) =>
        match KeywordSpaces(v, "function", false)
        case None => false
        case Some(w) => StartsWith(w, name)
  }

  /** `export\s+function\s+NAME` */
  predicate ExportPlainFunction(t: string, name: string) {
    match KeywordSpaces(t, "export", false)
    case None => false
    case Some(u) =>
      match KeywordSpaces(u, "function", false)
      case None => false
      case Some(w) => StartsWith(w, name)
  }

  /** `export\s+const\s+NAME\s*=` */
  predicate ExportConst(t: string, name: string) {
    match KeywordSpaces(t, "export", false)
    case None => false
    case Some(u) =>
      match KeywordSpaces(u, "const", false)
      case None => false
      case Some(w) =>
        StartsWith(w, name)
        && var x := w[|name|..];
           var k := LeadingSpaces(x);
           k < |x| && x[k] == '='
  }

  /** Index of the first `c` in `s`, or |s| when there is none. */
  function IndexOf(s: string, c: char): (k: nat)
    ensures k <= |s| && c !in s[..k]
    ensures k < |s| ==> s[k] == c
  {
    if s == [] then 0 else if s[0] == c then 0 else 1 + IndexOf(s[1..], c)
  }

  /** `export\s+{[^}]*NAME[^}]*}`: NAME inside the braces up to the first closing one. */
  predicate ExportBraces(t: string, name: string) {
    match KeywordSpaces(t, "export", false)
    case None => false
    case Some(u) =>
      StartsWith(u, "{")
      && var body := u[1..];
         var close := IndexOf(body, '}');
         close < |body| && Contains(body[..close], name)
  }

  /**
    `export\s+async\s+function\s+(\w+)` at the start of `t`: the captured
    name and the length of the whole match.
   */
  function ServerActionAt(t: string): (r: Option<(string, nat)>)
    ensures r.Some? ==> 0 < r.value.1 <= |t| && |r.value.0| > 0
  {
    match ServerActionHead(t)
    case None => None
    case Some(w) =>
      var k := LeadingWord(w);
      if k == 0 then None else Some((w[..k], |t| - |w| + k))
  }

  /** `export\s+async\s+function\s+` at the start of `t`: what follows it. */
  function ServerActionHead(t: string): (r: Option<string>)
    ensures r.Some? ==> |r.value| < |t|
  {
    match KeywordSpaces(t, "export", false)
    case None => None
    case Some(u) =>
      match KeywordSpaces(u, "async", false)
      case None => None
      case Some(v) => KeywordSpaces(v, "function", false)
  }

  /** The names captured by successive `exec` calls of the global server-action expression. */
  function ServerActionNames(t: string): (names: seq<string>)
    decreases |t|
  {
    if t == [] then []
    else match ServerActionAt(t)
      case Some((name, len)) => [name] + ServerActionNames(t[len..])
      case None => ServerActionNames(t[1..])
  }

  /** How far one `exec` step moves: past a match, or one character on a miss. */
  function ScanStep(t: string): (skip: nat)
    requires t != []
    ensures 0 < skip <= |t|
  {
    match ServerActionAt(t)
    case Some((_, len)) => len
    case None => 1
  }

  /** The global `exec` loop tries a match at position `p` of `t`. */
  predicate Reaches(t: string, p: nat)
    decreases |t|
  {
    p == 0 || (t != [] && ScanStep(t) <= p && Reaches(t[ScanStep(t)..], p - ScanStep(t)))
  }
}
