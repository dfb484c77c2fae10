/**
 * The database's `Data` mapping (a `UserDict`, db.py:7): a string-to-string
 * dictionary that remembers the order in which keys were first inserted.
 * It is modelled as a list of entries with pairwise distinct keys; `AsMap`
 * forgets the order and gives the plain mapping.
 */
module Dicts {
  import opened Wrappers

  datatype Entry = Entry(key: string, value: string)

  /** The keys in insertion order (`list(d.keys())`). */
  function Keys(d: seq<Entry>): (ks: seq<string>)
    ensures |ks| == |d|
  {
    if d == [] then [] else [d[0].key] + Keys(d[1..])
  }

  /** The values in insertion order (`list(d.values())`). */
  function Values(d: seq<Entry>): (vs: seq<string>)
    ensures |vs| == |d|
  {
    if d == [] then [] else [d[0].value] + Values(d[1..])
  }

  /** No key occurs twice. */
  predicate UniqueKeys(d: seq<Entry>)
  {
    d == [] || (d[0].key !in Keys(d[1..]) && UniqueKeys(d[1..]))
  }

  /** An insertion-ordered dictionary. */
  type Data = d: seq<Entry> | UniqueKeys(d) witness []

  /** The mapping the dictionary represents. */
  function AsMap(d: seq<Entry>): (m: map<string, string>)
    ensures forall k :: k in m <==> k in Keys(d)
  {
    if d == [] then map[] else AsMap(d[1..])[d[0].key := d[0].value]
  }

  /** The position of key `k`, or `|d|` when it is absent. */
  function IndexOf(d: seq<Entry>, k: string): (i: nat)
    ensures i <= |d|
    ensures i < |d| <==> k in Keys(d)
    ensures i < |d| ==> d[i].key == k
  {
    if d == [] then 0 else if d[0].key == k then 0 else 1 + IndexOf(d[1..], k)
  }

  /** Lookup: the value bound to `k`, if any. */
  function Get(d: seq<Entry>, k: string): (r: Option<string>)
    ensures r.Some? <==> k in AsMap(d)
    ensures r.Some? ==> r.value == AsMap(d)[k]
  {
    if d == [] then None
    else if d[0].key == k then Some(d[0].value)
    else Get(d[1..], k)
  }

  /**
   * `d[k] = v`: rebinds `k` in place when it is present, appends it as the
   * newest key otherwise.
   */
  function SetItem(d: Data, k: string, v: string): (r: Data)
    ensures AsMap(r) == AsMap(d)[k := v]
    ensures Keys(r) == if k in Keys(d) then Keys(d) else Keys(d) + [k]
  {
    if d == [] then
      assert [Entry(k, v)][1..] == [];
      [Entry(k, v)]
    else if d[0].key == k then
      var r := [Entry(k, v)] + d[1..];
      assert r[1..] == d[1..];
      r
    else
      var tail := SetItem(d[1..], k, v);
      var r := [d[0]] + tail;
      assert r[1..] == tail;
      assert Keys(r) == [d[0].key] + Keys(tail);
      assert d[0].key !in Keys(tail);
      assert AsMap(r) == AsMap(tail)[d[0].key := d[0].value];
      assert AsMap(r) == AsMap(d)[k := v] by {
        MapUpdatesCommute(AsMap(d[1..]), d[0].key, d[0].value, k, v);
      }
      r
  }

  lemma MapUpdatesCommute(m: map<string, string>, k1: string, v1: string, k2: string, v2: string)
    requires k1 != k2
    ensures m[k2 := v2][k1 := v1] == m[k1 := v1][k2 := v2]
  {
  }

  /**
   * `d.pop(k)`: `None` when `k` is absent (where Python raises KeyError);
   * otherwise the value `k` was bound to and the dictionary without `k`,
   * the other entries keeping their order.
   */
  function Pop(d: Data, k: string): (r: Option<(string, Data)>)
    ensures r.None? <==> k !in AsMap(d)
    ensures r.Some? ==> k in AsMap(d) && r.value.0 == AsMap(d)[k]
    ensures r.Some? ==> AsMap(r.value.1) == AsMap(d) - {k}
    ensures r.Some? ==> var i := IndexOf(d, k); i < |d| && r.value.1 == d[..i] + d[i + 1..]
  {
    if d == [] then None
    else if d[0].key == k then
      UpdateThenRemove(AsMap(d[1..]), k, d[0].value);
      assert d[..0] + d[1..] == d[1..];
      Some((d[0].value, d[1..]))
    else
      var rest := Pop(d[1..], k);
      if rest.None? then None
      else
        var r := [d[0]] + rest.value.1;
        assert r[1..] == rest.value.1;
        RemoveThenUpdate(AsMap(d[1..]), k, d[0].key, d[0].value);
        DropAfterHead(d, IndexOf(d[1..], k));
        Some((rest.value.0, r))
  }

  lemma DropAfterHead(d: seq<Entry>, j: nat)
    requires j + 1 < |d|
    ensures [d[0]] + (d[1..][..j] + d[1..][j + 1..]) == d[..j + 1] + d[j + 2..]
  {
    assert d[..j + 1] == [d[0]] + d[1..][..j];
    assert d[j + 2..] == d[1..][j + 1..];
  }

  lemma UpdateThenRemove(m: map<string, string>, k: string, v: string)
    requires k !in m
    ensures m[k := v] - {k} == m
  {
  }

  lemma RemoveThenUpdate(m: map<string, string>, k: string, k1: string, v1: string)
    requires k != k1
    ensures (m - {k})[k1 := v1] == m[k1 := v1] - {k}
  {
  }

  /** `xs.count(x)`: how many times `x` occurs in `xs`. */
  function Count(xs: seq<string>, x: string): (n: nat)
    ensures n == multiset(xs)[x]
  {
    if xs == [] then 0
    else
      assert xs == [xs[0]] + xs[1..];
      (if xs[0] == x then 1 else 0) + Count(xs[1..], x)
  }

  /** `list(d.values()).count(v)`: the number of entries whose value is `v`. */
  function CountValue(d: seq<Entry>, v: string): (n: nat)
    ensures n == multiset(Values(d))[v]
    ensures n <= |d|
  {
    var vs := Values(d);
    assert |multiset(vs)| == |d|;
    assert multiset(vs)[v] <= |multiset(vs)| by {
      MultiplicityBound(multiset(vs), v);
    }
    Count(vs, v)
  }

  /** No element occurs more often than a multiset has elements. */
  lemma MultiplicityBound(m: multiset<string>, x: string)
    ensures m[x] <= |m|
  {
    if m[x] > 0 {
      var r := m - multiset{x};
      assert m == r + multiset{x};
      MultiplicityBound(r, x);
    }
  }

  /** The keys bound to `v` in the plain mapping. */
  function MatchingKeys(m: map<string, string>, v: string): set<string>
  {
    set k | k in m && m[k] == v
  }

  /** No string occurs twice in `xs`. */
  predicate Distinct(xs: seq<string>)
  {
    forall i, j :: 0 <= i < j < |xs| ==> xs[i] != xs[j]
  }

  /**
   * `[k for k, x in d.items() if x == v]`: the keys bound to `v`, in
   * insertion order, each once.
   */
  function KeysWithValue(d: Data, v: string): (ks: seq<string>)
    ensures forall k :: k in ks <==> k in MatchingKeys(AsMap(d), v)
    ensures Distinct(ks)
    ensures forall i, j :: 0 <= i < j < |ks| ==> IndexOf(d, ks[i]) < IndexOf(d, ks[j])
  {
    if d == [] then []
    else
      var rest := KeysWithValue(d[1..], v);
      assert d[0].key !in rest;
      forall k | k in rest ensures IndexOf(d, k) == 1 + IndexOf(d[1..], k) {
      }
      (if d[0].value == v then [d[0].key] else []) + rest
  }

  /** The keys FIND lists are exactly as many as the values COUNTS counts. */
  lemma {:induction false} KeysWithValueCount(d: Data, v: string)
    ensures |KeysWithValue(d, v)| == CountValue(d, v)
  {
    if d != [] {
      KeysWithValueCount(d[1..], v);
      assert Values(d)[1..] == Values(d[1..]);
    }
  }

  /** A list without repetitions has as many elements as the set of them. */
  lemma {:induction false} DistinctCardinality(xs: seq<string>)
    requires Distinct(xs)
    ensures |set x | x in xs| == |xs|
  {
    if xs != [] {
      var tail := xs[1..];
      assert Distinct(tail);
      DistinctCardinality(tail);
      assert (set x | x in xs) == {xs[0]} + (set x | x in tail);
      assert xs[0] !in (set x | x in tail);
    }
  }

  /**
   * `CountValue` agrees with the plain mapping: it is the number of keys
   * bound to `v`, whatever the insertion order.
   */
  lemma CountValueIsMatchingKeys(d: Data, v: string)
    ensures CountValue(d, v) == |MatchingKeys(AsMap(d), v)|
  {
    var ks := KeysWithValue(d, v);
    KeysWithValueCount(d, v);
    DistinctCardinality(ks);
    assert (set x | x in ks) == MatchingKeys(AsMap(d), v);
  }
}
