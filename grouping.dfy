/**
  Grouping records under a string key in a dictionary, the way the analysers
  fill an object `groups[key] = groups[key] || []; groups[key].push(x)`: the
  keys in order of first appearance (the insertion order of the object's
  string keys) and, per key, the records with that key in their original
  order.
 */
module Grouping {
  import opened Strings

  /** The distinct keys of `xs` in order of first appearance. */
  function Keys<T>(xs: seq<T>, key: T -> string): (ks: seq<string>)
    ensures forall k :: k in ks <==> exists i :: 0 <= i < |xs| && key(xs[i]) == k
    ensures Distinct(ks) && |ks| <= |xs|
    decreases |xs|
  {
    if xs == [] then []
    else
      var pre := xs[..|xs| - 1];
      var ks := Keys(pre, key);
      var k := key(xs[|xs| - 1]);
      forall j | 0 <= j < |pre| ensures pre[j] == xs[j] { }
      if k in ks then ks else ks + [k]
  }

  /** The records of `xs` whose key is `k`, in order. */
  function Group<T>(xs: seq<T>, key: T -> string, k: string): (g: seq<T>)
    ensures |g| <= |xs|
    ensures forall i :: 0 <= i < |g| ==> key(g[i]) == k
    decreases |xs|
  {
    if xs == [] then []
    else Group(xs[..|xs| - 1], key, k) + (if key(xs[|xs| - 1]) == k then [xs[|xs| - 1]] else [])
  }

  lemma KeysSnoc<T>(xs: seq<T>, x: T, key: T -> string)
    ensures Keys(xs + [x], key) == if key(x) in Keys(xs, key) then Keys(xs, key) else Keys(xs, key) + [key(x)]
  {
    assert (xs + [x])[..|xs|] == xs;
  }

  lemma GroupSnoc<T>(xs: seq<T>, x: T, key: T -> string, k: string)
    ensures Group(xs + [x], key, k) == Group(xs, key, k) + (if key(x) == k then [x] else [])
  {
    assert (xs + [x])[..|xs|] == xs;
  }

  /** A key that never occurs has an empty group. */
  lemma {:induction false} GroupAbsent<T>(xs: seq<T>, key: T -> string, k: string)
    requires k !in Keys(xs, key)
    ensures Group(xs, key, k) == []
    decreases |xs|
  {
    if xs != [] {
      var pre := xs[..|xs| - 1];
      assert xs == pre + [xs[|xs| - 1]];
      KeysSnoc(pre, xs[|xs| - 1], key);
      GroupAbsent(pre, key, k);
    }
  }

  /** Every record is in the group of its own key. */
  lemma {:induction false} GroupMember<T>(xs: seq<T>, key: T -> string, i: nat)
    requires i < |xs|
    ensures xs[i] in Group(xs, key, key(xs[i]))
    decreases |xs|
  {
    var pre := xs[..|xs| - 1];
    assert xs == pre + [xs[|xs| - 1]];
    GroupSnoc(pre, xs[|xs| - 1], key, key(xs[i]));
    if i < |xs| - 1 {
      assert pre[i] == xs[i];
      GroupMember(pre, key, i);
    }
  }

  /** The total size of the groups of the keys `ks`. */
  function GroupSizes<T>(ks: seq<string>, xs: seq<T>, key: T -> string): nat
    decreases |ks|
  {
    if ks == [] then 0 else GroupSizes(ks[..|ks| - 1], xs, key) + |Group(xs, key, ks[|ks| - 1])|
  }

  lemma {:induction false} GroupSizesSnoc<T>(ks: seq<string>, xs: seq<T>, x: T, key: T -> string)
    requires Distinct(ks)
    ensures GroupSizes(ks, xs + [x], key) == GroupSizes(ks, xs, key) + (if key(x) in ks then 1 else 0)
    decreases |ks|
  {
    if ks != [] {
      var pre := ks[..|ks| - 1];
      var last := ks[|ks| - 1];
      assert ks == pre + [last];
      assert Distinct(pre) by {
        forall i, j | 0 <= i < j < |pre| ensures pre[i] != pre[j] { assert pre[i] == ks[i] && pre[j] == ks[j]; }
      }
      assert last !in pre by {
        forall i | 0 <= i < |pre| ensures pre[i] != last { assert pre[i] == ks[i]; }
      }
      GroupSizesSnoc(pre, xs, x, key);
      GroupSnoc(xs, x, key, last);
      assert key(x) in ks <==> key(x) in pre || key(x) == last;
    }
  }

  /** The groups partition the records: their sizes add up to the number of records. */
  lemma {:induction false} GroupsPartition<T>(xs: seq<T>, key: T -> string)
    ensures GroupSizes(Keys(xs, key), xs, key) == |xs|
    decreases |xs|
  {
    if xs != [] {
      var pre := xs[..|xs| - 1];
      var x := xs[|xs| - 1];
      assert xs == pre + [x];
      GroupsPartition(pre, key);
      KeysSnoc(pre, x, key);
      var ks := Keys(pre, key);
      GroupSizesSnoc(ks, pre, x, key);
      if key(x) !in ks {
        GroupAbsent(pre, key, key(x));
        GroupSnoc(pre, x, key, key(x));
        assert (ks + [key(x)])[..|ks|] == ks;
      }
    }
  }

  /** The dictionary-filling loop: the groups under their keys, and the key order. */
  method Collect<T>(xs: seq<T>, key: T -> string) returns (groups: map<string, seq<T>>, order: seq<string>)
    ensures order == Keys(xs, key)
    ensures forall k :: k in groups <==> k in order
    ensures forall k :: k in groups ==> groups[k] == Group(xs, key, k)
  {
    groups := map[];
    order := [];
    for i := 0 to |xs|
      invariant order == Keys(xs[..i], key)
      invariant forall k :: k in groups <==> k in order
      invariant forall k :: k in groups ==> groups[k] == Group(xs[..i], key, k)
    {
      var k := key(xs[i]);
      assert xs[..i + 1] == xs[..i] + [xs[i]];
      KeysSnoc(xs[..i], xs[i], key);
      if k !in groups {
        GroupAbsent(xs[..i], key, k);
        groups := groups[k := []];
        order := order + [k];
      }
      groups := groups[k := groups[k] + [xs[i]]];
      forall k' | k' in groups ensures groups[k'] == Group(xs[..i + 1], key, k') {
        GroupSnoc(xs[..i], xs[i], key, k');
      }
    }
    assert xs[..|xs|] == xs;
  }
}
