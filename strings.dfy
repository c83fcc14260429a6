/**
  String helpers shared by the analysers: prefix and suffix tests, the
  whitespace and word-character classes of ECMAScript regular expressions,
  `String.prototype.split` on a one-character separator and its inverse
  `Array.prototype.join`, code-unit lexicographic order, and a stable
  insertion sort keyed by a string.
 */
module Strings {

  predicate StartsWith(s: string, p: string) {
    |p| <= |s| && s[..|p|] == p
  }

  predicate EndsWith(s: string, p: string) {
    |p| <= |s| && s[|s| - |p|..] == p
  }

  /** `s.includes(sub)` */
  predicate Contains(s: string, sub: string) {
    StartsWith(s, sub) || (s != [] && Contains(s[1..], sub))
  }

  /** A match at position `i` is a match. */
  lemma {:induction false} ContainsAt(s: string, sub: string, i: nat)
    requires i <= |s| && StartsWith(s[i..], sub)
    ensures Contains(s, sub)
    decreases i
  {
    if i == 0 {
      assert s[0..] == s;
    } else {
      assert s[1..][i - 1..] == s[i..];
      ContainsAt(s[1..], sub, i - 1);
    }
  }

  /** `s.includes(c)` for one character is membership. */
  lemma {:induction false} ContainsChar(s: string, c: char)
    ensures Contains(s, [c]) <==> c in s
    decreases |s|
  {
    if s != [] {
      ContainsChar(s[1..], c);
      assert s == [s[0]] + s[1..];
      assert c in s <==> s[0] == c || c in s[1..];
    }
  }

  // ---------------------------------------------------------------------------
  // Character classes
  // ---------------------------------------------------------------------------

  /** The `\s` class: ECMAScript WhiteSpace and LineTerminator code points. */
  predicate IsSpace(c: char) {
    c == ' ' || c == '\t' || c == '\n' || c == '\r' || c == '\U{B}' || c == '\U{C}'
    || c == '\U{A0}' || c == '\U{1680}' || ('\U{2000}' <= c <= '\U{200A}')
    || c == '\U{2028}' || c == '\U{2029}' || c == '\U{202F}' || c == '\U{205F}'
    || c == '\U{3000}' || c == '\U{FEFF}'
  }

  /** The `\w` class: `[A-Za-z0-9_]`. */
  predicate IsWordChar(c: char) {
    ('a' <= c <= 'z') || ('A' <= c <= 'Z') || ('0' <= c <= '9') || c == '_'
  }

  predicate IsAlnum(c: char) {
    ('a' <= c <= 'z') || ('A' <= c <= 'Z') || ('0' <= c <= '9')
  }

  /** Case folding of a case-insensitive regular expression without the `u` flag: ASCII letters only. */
  function FoldAscii(c: char): (r: char)
    ensures !('A' <= c <= 'Z') ==> r == c
  {
    if 'A' <= c <= 'Z' then (c as int + 32) as char else c
  }

  /** `s` starts with `p`, comparing letters case-insensitively. */
  predicate StartsWithFold(s: string, p: string) {
    |p| <= |s| && forall i :: 0 <= i < |p| ==> FoldAscii(s[i]) == FoldAscii(p[i])
  }

  /** Length of the longest prefix of `s` made of `\s` characters. */
  function LeadingSpaces(s: string): (n: nat)
    ensures n <= |s|
    ensures forall i :: 0 <= i < n ==> IsSpace(s[i])
    ensures n < |s| ==> !IsSpace(s[n])
  {
    if |s| > 0 && IsSpace(s[0]) then 1 + LeadingSpaces(s[1..]) else 0
  }

  /** Length of the longest prefix of `s` made of `\w` characters. */
  function LeadingWord(s: string): (n: nat)
    ensures n <= |s|
    ensures forall i :: 0 <= i < n ==> IsWordChar(s[i])
    ensures n < |s| ==> !IsWordChar(s[n])
  {
    if |s| > 0 && IsWordChar(s[0]) then 1 + LeadingWord(s[1..]) else 0
  }

  /** A prefix of word characters followed by a non-word character (or the end) is the leading word. */
  lemma LeadingWordIs(s: string, n: nat)
    requires n <= |s| && (forall i :: 0 <= i < n ==> IsWordChar(s[i])) && (n < |s| ==> !IsWordChar(s[n]))
    ensures LeadingWord(s) == n
  {
  }

  /** Length of the longest suffix of `s` made of `\s` characters. */
  function TrailingSpaces(s: string): (n: nat)
    ensures n <= |s|
    ensures forall i :: |s| - n <= i < |s| ==> IsSpace(s[i])
    ensures n < |s| ==> !IsSpace(s[|s| - n - 1])
  {
    if |s| > 0 && IsSpace(s[|s| - 1]) then 1 + TrailingSpaces(s[..|s| - 1]) else 0
  }

  /** `String.prototype.trim`: `s` with the white space at both ends removed. */
  function Trim(s: string): (r: string)
    ensures |r| <= |s|
    ensures r == "" || (!IsSpace(r[0]) && !IsSpace(r[|r| - 1]))
    ensures exists a, b :: 0 <= a <= b <= |s| && r == s[a..b]
                        && (forall i :: 0 <= i < a ==> IsSpace(s[i])) && (forall i :: b <= i < |s| ==> IsSpace(s[i]))
  {
    var a := LeadingSpaces(s);
    var b := a + |s[a..]| - TrailingSpaces(s[a..]);
    TrimEnds(s, a, b);
    s[a..b]
  }

  lemma TrimEnds(s: string, a: nat, b: nat)
    requires a == LeadingSpaces(s) && b == a + |s[a..]| - TrailingSpaces(s[a..])
    ensures a <= b <= |s|
    ensures forall i :: b <= i < |s| ==> IsSpace(s[i])
    ensures a < b ==> !IsSpace(s[a]) && !IsSpace(s[b - 1])
  {
    var t := s[a..];
    assert forall i :: b <= i < |s| ==> s[i] == t[i - a];
    if a < b {
      assert s[b - 1] == t[|t| - TrailingSpaces(t) - 1];
    }
  }

  /** `s.slice(from, -back)`: empty when the two ends cross. */
  function Slice(s: string, from: nat, back: nat): (r: string)
    ensures from + back <= |s| ==> r == s[from..|s| - back]
    ensures from + back > |s| ==> r == ""
  {
    if from + back <= |s| then s[from..|s| - back] else ""
  }

  /** Length of the run of dots at the start of `s`. */
  function LeadingDots(s: string): (n: nat)
    ensures n <= |s| && (forall i :: 0 <= i < n ==> s[i] == '.') && (n < |s| ==> s[n] != '.')
  {
    if s != [] && s[0] == '.' then 1 + LeadingDots(s[1..]) else 0
  }

  /** Number of occurrences of the character `c` in `s`. */
  function CountChar(s: string, c: char): (n: nat)
    ensures n <= |s|
    ensures n == 0 <==> c !in s
  {
    if s == [] then 0 else (if s[0] == c then 1 else 0) + CountChar(s[1..], c)
  }

  lemma {:induction false} CountCharAppend(a: string, b: string, c: char)
    ensures CountChar(a + b, c) == CountChar(a, c) + CountChar(b, c)
    decreases |a|
  {
    if a == [] {
      assert a + b == b;
    } else {
      assert (a + b)[0] == a[0];
      assert (a + b)[1..] == a[1..] + b;
      CountCharAppend(a[1..], b, c);
    }
  }

  /** Number of maximal runs of `\w` characters in `s` (the matches of `/\w+/g`). */
  function WordRuns(s: string): (n: nat)
    decreases |s|
  {
    if s == [] then 0
    else if IsWordChar(s[0]) then 1 + WordRuns(s[LeadingWord(s)..])
    else WordRuns(s[1..])
  }

  // ---------------------------------------------------------------------------
  // Split and join
  // ---------------------------------------------------------------------------

  /** `s.split(sep)` for a one-character separator: always at least one part. */
  function Split(s: string, sep: char): (parts: seq<string>)
    ensures |parts| >= 1
    ensures forall i :: 0 <= i < |parts| ==> sep !in parts[i]
  {
    if s == [] then [""]
    else
      var rest := Split(s[1..], sep);
      if s[0] == sep then [""] + rest else [[s[0]] + rest[0]] + rest[1..]
  }

  /** `n` copies of `s`. */
  function Repeat(s: string, n: nat): (r: seq<string>)
    ensures |r| == n && forall i :: 0 <= i < n ==> r[i] == s
  {
    if n == 0 then [] else [s] + Repeat(s, n - 1)
  }

  /** `parts.join(sep)` */
  function Join(parts: seq<string>, sep: string): string {
    if parts == [] then ""
    else if |parts| == 1 then parts[0]
    else parts[0] + sep + Join(parts[1..], sep)
  }

  /** Splitting and re-joining on the same separator gives back the string. */
  lemma {:induction false} JoinSplit(s: string, sep: char)
    ensures Join(Split(s, sep), [sep]) == s
  {
    if s != [] {
      var rest := Split(s[1..], sep);
      JoinSplit(s[1..], sep);
      if s[0] == sep {
        assert Split(s, sep) == [""] + rest;
        assert Join([""] + rest, [sep]) == "" + [sep] + Join(rest, [sep]);
        assert s == [s[0]] + s[1..];
      } else {
        var first := [s[0]] + rest[0];
        assert Split(s, sep) == [first] + rest[1..];
        if |rest| == 1 {
          assert Join(rest, [sep]) == rest[0];
        } else {
          assert Join(rest, [sep]) == rest[0] + [sep] + Join(rest[1..], [sep]);
          assert ([first] + rest[1..])[1..] == rest[1..];
        }
        assert s == [s[0]] + s[1..];
      }
    }
  }

  /** The first part of a split is the longest prefix free of the separator. */
  lemma {:induction false} SplitFirst(s: string, sep: char)
    ensures StartsWith(s, Split(s, sep)[0])
    ensures |Split(s, sep)[0]| < |s| ==> s[|Split(s, sep)[0]|] == sep
    ensures |Split(s, sep)| == 1 <==> sep !in s
  {
    if s != [] {
      SplitFirst(s[1..], sep);
    }
  }

  /** Splitting at the first separator: the text before it, then the split of the rest. */
  lemma {:induction false} SplitAtFirst(s: string, sep: char)
    requires sep in s
    ensures var i := |Split(s, sep)[0]|;
      i < |s| && s[i] == sep && Split(s, sep) == [s[..i]] + Split(s[i + 1..], sep)
    decreases |s|
  {
    SplitFirst(s, sep);
    if s[0] != sep {
      var rest := Split(s[1..], sep);
      assert sep in s[1..] by {
        var k :| 0 <= k < |s| && s[k] == sep;
        assert s[1..][k - 1] == sep;
      }
      SplitAtFirst(s[1..], sep);
      var j := |rest[0]|;
      assert Split(s, sep) == [[s[0]] + rest[0]] + rest[1..];
      assert rest[0] == s[1..][..j];
      assert [s[0]] + s[1..][..j] == s[..j + 1];
      assert s[1..][j + 1..] == s[j + 2..];
    }
  }

  /** Replaces every character outside `keep` with `with`. */
  function MapChars(s: string, keep: char -> bool, with: char): (r: string)
    ensures |r| == |s|
    ensures forall i :: 0 <= i < |s| ==> r[i] == (if keep(s[i]) then s[i] else with)
  {
    if s == [] then [] else [if keep(s[0]) then s[0] else with] + MapChars(s[1..], keep, with)
  }

  // ---------------------------------------------------------------------------
  // Ordering and sorting
  // ---------------------------------------------------------------------------

  /** Code-unit lexicographic order: the order of the default `Array.prototype.sort`. */
  predicate LexLe(a: string, b: string)
    decreases |a|
  {
    a == [] || (b != [] && (a[0] < b[0] || (a[0] == b[0] && LexLe(a[1..], b[1..]))))
  }

  lemma {:induction false} LexLeTotal(a: string, b: string)
    ensures LexLe(a, b) || LexLe(b, a)
    decreases |a|
  {
    if a != [] && b != [] && a[0] == b[0] {
      LexLeTotal(a[1..], b[1..]);
    }
  }

  lemma {:induction false} LexLeTrans(a: string, b: string, c: string)
    requires LexLe(a, b) && LexLe(b, c)
    ensures LexLe(a, c)
    decreases |a|
  {
    if a != [] && b != [] && c != [] && a[0] == b[0] && b[0] == c[0] {
      LexLeTrans(a[1..], b[1..], c[1..]);
    }
  }

  lemma {:induction false} LexLeAntisym(a: string, b: string)
    requires LexLe(a, b) && LexLe(b, a)
    ensures a == b
    decreases |a|
  {
    if a != [] {
      LexLeAntisym(a[1..], b[1..]);
      assert a == [a[0]] + a[1..] && b == [b[0]] + b[1..];
    }
  }

  predicate SortedBy<T>(s: seq<T>, key: T -> string) {
    forall i, j :: 0 <= i < j < |s| ==> LexLe(key(s[i]), key(s[j]))
  }

  lemma {:induction false} LexLeRefl(a: string)
    ensures LexLe(a, a)
    decreases |a|
  {
    if a != [] {
      LexLeRefl(a[1..]);
    }
  }

  /**
    Inserts `x` before the first element whose key is not smaller than its
    own; as `x` comes from before all of `s`, equal keys keep their order.
   */
  function InsertBy<T>(x: T, s: seq<T>, key: T -> string): (r: seq<T>)
    ensures multiset(r) == multiset(s) + multiset{x}
    ensures |r| == |s| + 1
  {
    if s == [] then [x]
    else
      assert s == [s[0]] + s[1..];
      if LexLe(key(s[0]), key(x)) && key(s[0]) != key(x) then [s[0]] + InsertBy(x, s[1..], key)
      else [x] + s
  }

  lemma {:induction false} InsertBySorted<T>(x: T, s: seq<T>, key: T -> string)
    requires SortedBy(s, key)
    ensures SortedBy(InsertBy(x, s, key), key)
  {
    if s != [] {
      if LexLe(key(s[0]), key(x)) && key(s[0]) != key(x) {
        var t := s[1..];
        assert SortedBy(t, key) by {
          forall i, j | 0 <= i < j < |t| ensures LexLe(key(t[i]), key(t[j])) {
            assert t[i] == s[i + 1] && t[j] == s[j + 1];
          }
        }
        InsertBySorted(x, t, key);
        forall k | 0 <= k < |t| ensures LexLe(key(s[0]), key(t[k])) {
          assert t[k] == s[k + 1];
        }
        InsertByLowerBound(x, t, key, key(s[0]));
        var r := InsertBy(x, t, key);
        assert InsertBy(x, s, key) == [s[0]] + r;
        forall i, j | 0 <= i < j < |r| + 1 ensures LexLe(key(([s[0]] + r)[i]), key(([s[0]] + r)[j])) {
          assert ([s[0]] + r)[j] == r[j - 1];
          if i > 0 { assert ([s[0]] + r)[i] == r[i - 1]; }
        }
      } else {
        LexLeTotal(key(s[0]), key(x));
        LexLeRefl(key(x));
        forall j | 1 <= j < |s| + 1 ensures LexLe(key(x), key(([x] + s)[j])) {
          assert ([x] + s)[j] == s[j - 1];
          if j > 1 { LexLeTrans(key(x), key(s[0]), key(s[j - 1])); }
        }
      }
    }
  }

  /** A bound below the inserted element and below all of `s` stays below everything. */
  lemma {:induction false} InsertByLowerBound<T>(x: T, s: seq<T>, key: T -> string, lo: string)
    requires LexLe(lo, key(x))
    requires forall k :: 0 <= k < |s| ==> LexLe(lo, key(s[k]))
    ensures forall k :: 0 <= k < |s| + 1 ==> LexLe(lo, key(InsertBy(x, s, key)[k]))
  {
    if s != [] && LexLe(key(s[0]), key(x)) && key(s[0]) != key(x) {
      var t := s[1..];
      forall k | 0 <= k < |t| ensures LexLe(lo, key(t[k])) {
        assert t[k] == s[k + 1];
      }
      InsertByLowerBound(x, t, key, lo);
      var r := InsertBy(x, t, key);
      assert InsertBy(x, s, key) == [s[0]] + r;
      forall k | 0 <= k < |s| + 1 ensures LexLe(lo, key(([s[0]] + r)[k])) {
        if k > 0 { assert ([s[0]] + r)[k] == r[k - 1]; }
      }
    } else if s != [] {
      forall k | 0 <= k < |s| + 1 ensures LexLe(lo, key(([x] + s)[k])) {
        if k > 0 { assert ([x] + s)[k] == s[k - 1]; }
      }
    }
  }

  /** Stable insertion sort by a string key. */
  function SortBy<T>(s: seq<T>, key: T -> string): (r: seq<T>)
    ensures multiset(r) == multiset(s)
    ensures |r| == |s|
  {
    if s == [] then []
    else
      assert s == [s[0]] + s[1..];
      InsertBy(s[0], SortBy(s[1..], key), key)
  }

  /** The sort returns its input reordered by key. */
  lemma {:induction false} SortBySorted<T>(s: seq<T>, key: T -> string)
    ensures SortedBy(SortBy(s, key), key)
    ensures multiset(SortBy(s, key)) == multiset(s)
  {
    if s != [] {
      SortBySorted(s[1..], key);
      InsertBySorted(s[0], SortBy(s[1..], key), key);
    }
  }

  /** No element occurs twice. */
  ghost predicate Distinct<T>(s: seq<T>) {
    forall i, j :: 0 <= i < j < |s| ==> s[i] != s[j]
  }

  /** A sequence is free of repetitions exactly when its multiset has no element twice. */
  lemma {:induction false} DistinctCounts<T>(s: seq<T>)
    ensures Distinct(s) <==> forall x :: multiset(s)[x] <= 1
  {
    if s != [] {
      var h, t := s[0], s[1..];
      DistinctCounts(t);
      assert s == [h] + t;
      assert multiset(s) == multiset{h} + multiset(t);
      if Distinct(s) {
        forall k | 0 <= k < |t| ensures t[k] != h {
          assert t[k] == s[k + 1];
        }
        assert Distinct(t) by {
          forall i, j | 0 <= i < j < |t| ensures t[i] != t[j] {
            assert s[i + 1] != s[j + 1];
          }
        }
      }
      if forall x :: multiset(s)[x] <= 1 {
        assert multiset(s)[h] <= 1;
        assert multiset(s)[h] == 1 + multiset(t)[h];
        assert forall x :: multiset(t)[x] <= 1 by {
          forall x ensures multiset(t)[x] <= 1 {
            assert multiset(s)[x] <= 1;
          }
        }
        forall i, j | 0 <= i < j < |s| ensures s[i] != s[j] {
          if i == 0 {
            assert s[j] == t[j - 1];
            assert t[j - 1] in multiset(t);
          } else {
            assert s[i] == t[i - 1] && s[j] == t[j - 1];
          }
        }
      }
    }
  }

  /** Reordering keeps a sequence free of repetitions. */
  lemma DistinctPermutation<T>(a: seq<T>, b: seq<T>)
    requires multiset(a) == multiset(b) && Distinct(a)
    ensures Distinct(b)
  {
    DistinctCounts(a);
    DistinctCounts(b);
  }

  /** `a` is `b` with some elements left out. */
  ghost predicate Subsequence<T>(a: seq<T>, b: seq<T>)
    decreases |b|
  {
    a == [] || (b != [] && ((a[0] == b[0] && Subsequence(a[1..], b[1..])) || Subsequence(a, b[1..])))
  }

  function Id(s: string): string { s }

  // ---------------------------------------------------------------------------
  // Numbers
  // ---------------------------------------------------------------------------

  function DigitChar(d: nat): char
    requires d < 10
  {
    "0123456789"[d]
  }

  /** Decimal rendering of a natural number, as template-literal interpolation gives. */
  function NatToString(n: nat): (r: string)
    ensures |r| >= 1
    ensures forall i :: 0 <= i < |r| ==> '0' <= r[i] <= '9'
  {
    if n < 10 then [DigitChar(n)] else NatToString(n / 10) + [DigitChar(n % 10)]
  }
}
