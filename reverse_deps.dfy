/**
  Inverting a forward dependency graph (importer to imported files) into a
  reverse graph (file to the files that import it). The forward graph is an
  object: a sequence of (file, imports) entries in key order. The reverse
  graph has exactly the forward keys, each starting as an empty list; an
  import whose target is not a forward key is skipped.
 */
module ReverseDependencies {
  import opened Strings

  type Graph = seq<(string, seq<string>)>

  /** The keys of the forward graph, in order. */
  function KeyList(forward: Graph): (ks: seq<string>)
    ensures |ks| == |forward|
    ensures forall i :: 0 <= i < |ks| ==> ks[i] == forward[i].0
  {
    if forward == [] then [] else [forward[0].0] + KeyList(forward[1..])
  }

  /**
    The importers of `x`, in the order the inversion pushes them: for each
    entry in order, its key once per occurrence of `x` among its imports.
   */
  function Importers(forward: Graph, x: string): seq<string>
    decreases |forward|
  {
    if forward == [] then []
    else
      var last := forward[|forward| - 1];
      Importers(forward[..|forward| - 1], x) + Repeat(last.0, multiset(last.1)[x])
  }

  /** The reverse graph: every forward key, mapped to its importers. */
  function Reverse(forward: Graph): map<string, seq<string>>
  {
    map k | k in KeyList(forward) :: Importers(forward, k)
  }

  lemma ImportersSnoc(forward: Graph, e: (string, seq<string>), x: string)
    ensures Importers(forward + [e], x) == Importers(forward, x) + Repeat(e.0, multiset(e.1)[x])
  {
    assert (forward + [e])[..|forward|] == forward;
  }

  lemma KeyListSnoc(forward: Graph, e: (string, seq<string>))
    ensures KeyList(forward + [e]) == KeyList(forward) + [e.0]
  {
  }

  /** A map with the forward keys, each holding its importers, is the reverse graph. */
  lemma ReverseExt(forward: Graph, reverse: map<string, seq<string>>)
    requires forall k :: k in reverse <==> k in KeyList(forward)
    requires forall k :: k in reverse ==> reverse[k] == Importers(forward, k)
    ensures reverse == Reverse(forward)
  {
  }

  /** The inner loop: push `importer` under every import target that is already a key. */
  method PushImporter(reverse: map<string, seq<string>>, importer: string, imports: seq<string>)
    returns (updated: map<string, seq<string>>)
    ensures updated.Keys == reverse.Keys
    ensures forall k :: k in updated ==> updated[k] == reverse[k] + Repeat(importer, multiset(imports)[k])
  {
    updated := reverse;
    for j := 0 to |imports|
      invariant updated.Keys == reverse.Keys
      invariant forall k :: k in updated ==> updated[k] == reverse[k] + Repeat(importer, multiset(imports[..j])[k])
    {
      ghost var before := updated;
      var target := imports[j];
      if target in updated {
        updated := updated[target := updated[target] + [importer]];
      }
      PushStep(reverse, before, updated, importer, imports, j);
    }
    assert imports[..|imports|] == imports;
  }

  /** One import of the inner loop keeps its invariant. */
  lemma PushStep(reverse: map<string, seq<string>>, before: map<string, seq<string>>, after: map<string, seq<string>>,
                 importer: string, imports: seq<string>, j: nat)
    requires j < |imports|
    requires before.Keys == reverse.Keys
    requires forall k :: k in before ==> before[k] == reverse[k] + Repeat(importer, multiset(imports[..j])[k])
    requires after == if imports[j] in before then before[imports[j] := before[imports[j]] + [importer]] else before
    ensures after.Keys == reverse.Keys
    ensures forall k :: k in after ==> after[k] == reverse[k] + Repeat(importer, multiset(imports[..j + 1])[k])
  {
    forall k | k in after
      ensures after[k] == reverse[k] + Repeat(importer, multiset(imports[..j + 1])[k])
    {
      CountSnoc(imports, j, k);
      RepeatSnoc(importer, multiset(imports[..j])[k]);
    }
  }

  /** The nested loops of `generateReverseDependencies`. */
  method GenerateReverseDependencies(forward: Graph) returns (reverse: map<string, seq<string>>)
    ensures reverse == Reverse(forward)
  {
    reverse := map[];
    for i := 0 to |forward|
      invariant forall k :: k in reverse <==> k in KeyList(forward[..i])
      invariant forall k :: k in reverse ==> reverse[k] == []
    {
      assert forward[..i + 1] == forward[..i] + [forward[i]];
      KeyListSnoc(forward[..i], forward[i]);
      reverse := reverse[forward[i].0 := []];
    }
    assert forward[..|forward|] == forward;
    ghost var keys := reverse.Keys;
    for i := 0 to |forward|
      invariant reverse.Keys == keys
      invariant forall k :: k in reverse ==> reverse[k] == Importers(forward[..i], k)
    {
      reverse := PushImporter(reverse, forward[i].0, forward[i].1);
      assert forward[..i + 1] == forward[..i] + [forward[i]];
      forall k | k in reverse ensures reverse[k] == Importers(forward[..i + 1], k) {
        ImportersSnoc(forward[..i], forward[i], k);
      }
    }
    assert forward[..|forward|] == forward;
    ReverseExt(forward, reverse);
  }

  lemma CountSnoc(s: seq<string>, j: nat, k: string)
    requires j < |s|
    ensures multiset(s[..j + 1])[k] == multiset(s[..j])[k] + (if s[j] == k then 1 else 0)
  {
    assert s[..j + 1] == s[..j] + [s[j]];
  }

  lemma RepeatSnoc(s: string, n: nat)
    ensures Repeat(s, n + 1) == Repeat(s, n) + [s]
  {
  }

  /** The keys of the reverse graph are exactly the forward keys: an import of a non-key adds none. */
  lemma ReverseKeys(forward: Graph, x: string)
    ensures x in Reverse(forward) <==> exists i :: 0 <= i < |forward| && forward[i].0 == x
  {
    if x in Reverse(forward) {
      var i :| 0 <= i < |KeyList(forward)| && KeyList(forward)[i] == x;
    }
  }

  /** Every forward key starts with an empty list: a key nobody imports maps to []. */
  lemma {:induction false} NotImportedEmpty(forward: Graph, x: string)
    requires forall i :: 0 <= i < |forward| ==> x !in forward[i].1
    ensures Importers(forward, x) == []
    decreases |forward|
  {
    if forward != [] {
      var last := forward[|forward| - 1];
      assert x !in multiset(last.1);
      NotImportedEmpty(forward[..|forward| - 1], x);
    }
  }

  /** `y` is an importer of `x` exactly when some entry with key `y` lists `x`. */
  lemma {:induction false} ImportersMember(forward: Graph, x: string, y: string)
    ensures y in Importers(forward, x) <==> exists i :: 0 <= i < |forward| && forward[i].0 == y && x in forward[i].1
    decreases |forward|
  {
    if forward != [] {
      var n := |forward| - 1;
      var pre := forward[..n];
      var last := forward[n];
      ImportersMember(pre, x, y);
      assert y in Repeat(last.0, multiset(last.1)[x]) <==> last.0 == y && x in last.1;
      if exists i :: 0 <= i < |forward| && forward[i].0 == y && x in forward[i].1 {
        var i :| 0 <= i < |forward| && forward[i].0 == y && x in forward[i].1;
        if i < n {
          assert pre[i] == forward[i];
        }
      }
      if exists i :: 0 <= i < |pre| && pre[i].0 == y && x in pre[i].1 {
        var i :| 0 <= i < |pre| && pre[i].0 == y && x in pre[i].1;
        assert forward[i] == pre[i];
      }
    }
  }

  /** On the reverse graph: `y` is listed under `x` iff `x` is a forward key and `y` imports it. */
  lemma ReverseMember(forward: Graph, x: string, y: string)
    requires x in Reverse(forward)
    ensures y in Reverse(forward)[x] <==> exists i :: 0 <= i < |forward| && forward[i].0 == y && x in forward[i].1
  {
    ImportersMember(forward, x, y);
  }

  /** How often the entries keyed `y` list `x`. */
  function EdgeCount(forward: Graph, y: string, x: string): nat
    decreases |forward|
  {
    if forward == [] then 0
    else
      var last := forward[|forward| - 1];
      EdgeCount(forward[..|forward| - 1], y, x) + (if last.0 == y then multiset(last.1)[x] else 0)
  }

  lemma RepeatCount(s: string, n: nat, y: string)
    ensures multiset(Repeat(s, n))[y] == if s == y then n else 0
  {
    if n > 0 {
      assert Repeat(s, n) == [s] + Repeat(s, n - 1);
      RepeatCount(s, n - 1, y);
    }
  }

  /** `y` occurs in the importers of `x` as often as the entries keyed `y` list `x`. */
  lemma {:induction false} ImportersMultiplicity(forward: Graph, x: string, y: string)
    ensures multiset(Importers(forward, x))[y] == EdgeCount(forward, y, x)
    decreases |forward|
  {
    if forward != [] {
      var last := forward[|forward| - 1];
      ImportersMultiplicity(forward[..|forward| - 1], x, y);
      RepeatCount(last.0, multiset(last.1)[x], y);
    }
  }

  /** With distinct keys, the count is the number of occurrences of `x` in `y`'s import list. */
  lemma {:induction false} EdgeCountDistinct(forward: Graph, i: nat, x: string)
    requires i < |forward| && Distinct(KeyList(forward))
    ensures EdgeCount(forward, forward[i].0, x) == multiset(forward[i].1)[x]
    decreases |forward|
  {
    var n := |forward| - 1;
    var pre := forward[..n];
    var y := forward[i].0;
    assert Distinct(KeyList(pre)) by {
      forall a, b | 0 <= a < b < |pre| ensures KeyList(pre)[a] != KeyList(pre)[b] {
        assert KeyList(forward)[a] != KeyList(forward)[b];
      }
    }
    if i < n {
      assert pre[i] == forward[i];
      EdgeCountDistinct(pre, i, x);
      assert KeyList(forward)[i] != KeyList(forward)[n];
    } else {
      EdgeCountAbsent(pre, y, x);
    }
  }

  /** A key with no entry has no edges. */
  lemma {:induction false} EdgeCountAbsent(forward: Graph, y: string, x: string)
    requires forall i :: 0 <= i < |forward| ==> forward[i].0 != y
    ensures EdgeCount(forward, y, x) == 0
    decreases |forward|
  {
    if forward != [] {
      EdgeCountAbsent(forward[..|forward| - 1], y, x);
    }
  }

  // ---------------------------------------------------------------------------
  // Total size of the reverse graph
  // ---------------------------------------------------------------------------

  /** The number of elements of `s` that lie in `keys`. */
  function CountIn(s: seq<string>, keys: set<string>): nat
    decreases |s|
  {
    if s == [] then 0 else CountIn(s[..|s| - 1], keys) + (if s[|s| - 1] in keys then 1 else 0)
  }

  /** The number of forward edges whose target is one of `keys`. */
  function EdgesInto(forward: Graph, keys: set<string>): nat
    decreases |forward|
  {
    if forward == [] then 0
    else EdgesInto(forward[..|forward| - 1], keys) + CountIn(forward[|forward| - 1].1, keys)
  }

  /** The total length of the importer lists of the keys `ks`. */
  function TotalImporters(ks: seq<string>, forward: Graph): nat
    decreases |ks|
  {
    if ks == [] then 0 else TotalImporters(ks[..|ks| - 1], forward) + |Importers(forward, ks[|ks| - 1])|
  }

  /** Summed over distinct keys, the occurrences of the keys in `s`. */
  function Occurrences(ks: seq<string>, s: seq<string>): nat
    decreases |ks|
  {
    if ks == [] then 0 else Occurrences(ks[..|ks| - 1], s) + multiset(s)[ks[|ks| - 1]]
  }

  lemma DistinctPrefix(ks: seq<string>)
    requires ks != [] && Distinct(ks)
    ensures Distinct(ks[..|ks| - 1]) && ks[|ks| - 1] !in ks[..|ks| - 1]
  {
    var pre := ks[..|ks| - 1];
    forall i, j | 0 <= i < j < |pre| ensures pre[i] != pre[j] { assert pre[i] == ks[i] && pre[j] == ks[j]; }
    forall i | 0 <= i < |pre| ensures pre[i] != ks[|ks| - 1] { assert pre[i] == ks[i]; }
  }

  lemma {:induction false} OccurrencesSnoc(ks: seq<string>, s: seq<string>, t: string)
    requires Distinct(ks)
    ensures Occurrences(ks, s + [t]) == Occurrences(ks, s) + (if t in ks then 1 else 0)
    decreases |ks|
  {
    if ks != [] {
      var pre := ks[..|ks| - 1];
      DistinctPrefix(ks);
      OccurrencesSnoc(pre, s, t);
      assert ks == pre + [ks[|ks| - 1]];
      assert t in ks <==> t in pre || t == ks[|ks| - 1];
    }
  }

  /** Summing the occurrences of distinct keys counts the elements that are keys. */
  lemma {:induction false} OccurrencesCountIn(ks: seq<string>, s: seq<string>)
    requires Distinct(ks)
    ensures Occurrences(ks, s) == CountIn(s, set k | k in ks)
    decreases |s|
  {
    if s == [] {
      OccurrencesEmpty(ks);
    } else {
      var pre := s[..|s| - 1];
      assert s == pre + [s[|s| - 1]];
      OccurrencesCountIn(ks, pre);
      OccurrencesSnoc(ks, pre, s[|s| - 1]);
    }
  }

  lemma {:induction false} OccurrencesEmpty(ks: seq<string>)
    ensures Occurrences(ks, []) == 0
    decreases |ks|
  {
    if ks != [] {
      OccurrencesEmpty(ks[..|ks| - 1]);
    }
  }

  lemma {:induction false} TotalImportersSnoc(ks: seq<string>, forward: Graph, e: (string, seq<string>))
    ensures TotalImporters(ks, forward + [e]) == TotalImporters(ks, forward) + Occurrences(ks, e.1)
    decreases |ks|
  {
    if ks != [] {
      var pre := ks[..|ks| - 1];
      TotalImportersSnoc(pre, forward, e);
      ImportersSnoc(forward, e, ks[|ks| - 1]);
    }
  }

  lemma {:induction false} TotalImportersEmpty(ks: seq<string>)
    ensures TotalImporters(ks, []) == 0
    decreases |ks|
  {
    if ks != [] {
      TotalImportersEmpty(ks[..|ks| - 1]);
    }
  }

  /**
    Over distinct keys `ks`, the importer lists hold as many entries as there
    are forward edges into `ks`; with `ks` the forward keys this is the total
    size of the reverse graph.
   */
  lemma {:induction false} TotalEdges(ks: seq<string>, forward: Graph)
    requires Distinct(ks)
    ensures TotalImporters(ks, forward) == EdgesInto(forward, set k | k in ks)
    decreases |forward|
  {
    if forward == [] {
      TotalImportersEmpty(ks);
    } else {
      var pre := forward[..|forward| - 1];
      var e := forward[|forward| - 1];
      assert forward == pre + [e];
      TotalEdges(ks, pre);
      TotalImportersSnoc(ks, pre, e);
      OccurrencesCountIn(ks, e.1);
    }
  }

  /** The reverse graph of an object with distinct keys holds one entry per edge into a key. */
  lemma ReverseSize(forward: Graph)
    requires Distinct(KeyList(forward))
    ensures TotalImporters(KeyList(forward), forward) == EdgesInto(forward, Reverse(forward).Keys)
  {
    TotalEdges(KeyList(forward), forward);
    assert Reverse(forward).Keys == set k | k in KeyList(forward);
  }
}
