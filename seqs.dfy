/** The JavaScript collection idioms of the scripts: `[...new Set(xs)]`, `xs.flatMap`,
    `[...new Map(pairs).values()]` and `xs.filter(x => x !== v)`. */
module Seqs {
  import opened Wrappers

  predicate NoDup<T(==)>(s: seq<T>) {
    forall i, j :: 0 <= i < j < |s| ==> s[i] != s[j]
  }

  /** Position of the first occurrence of `x` in `s`. */
  function FirstIndex<T(==)>(s: seq<T>, x: T): (i: nat)
    requires x in s
    ensures i < |s| && s[i] == x && x !in s[..i]
  {
    if s[0] == x then 0 else 1 + FirstIndex(s[1..], x)
  }

  /** The first occurrence is the one position holding `x` with no `x` before it. */
  lemma {:induction false} FirstIndexUnique<T>(s: seq<T>, x: T, k: nat)
    requires k < |s| && s[k] == x && x !in s[..k]
    ensures FirstIndex(s, x) == k
  {
    if k > 0 {
      assert s[0] == s[..k][0];
      assert s[1..][..k - 1] == s[1..k];
      FirstIndexUnique(s[1..], x, k - 1);
    }
  }

  /** Adding an element at the end does not move the first occurrence of an element already there. */
  lemma FirstIndexAppend<T>(s: seq<T>, x: T, y: T)
    requires y in s
    ensures FirstIndex(s + [x], y) == FirstIndex(s, y)
  {
    var i := FirstIndex(s, y);
    assert (s + [x])[..i] == s[..i];
    FirstIndexUnique(s + [x], y, i);
  }

  /** `[...new Set(s)]`: the elements of `s` without repeats, each kept where it is first seen. */
  function Distinct<T(==)>(s: seq<T>): (r: seq<T>)
    ensures NoDup(r)
    ensures forall i :: 0 <= i < |r| ==> r[i] in s
    ensures forall i :: 0 <= i < |s| ==> s[i] in r
    ensures |r| <= |s|
  {
    if s == [] then []
    else
      var p := Distinct(s[..|s| - 1]);
      var x := s[|s| - 1];
      assert s == s[..|s| - 1] + [x];
      if x in p then p else p + [x]
  }

  /** The order of `Distinct(s)` is the order of first occurrence in `s`. */
  lemma {:induction false} DistinctFirstSeenOrder<T>(s: seq<T>, i: nat, j: nat)
    requires i < j < |Distinct(s)|
    ensures FirstIndex(s, Distinct(s)[i]) < FirstIndex(s, Distinct(s)[j])
  {
    var p := s[..|s| - 1];
    var x := s[|s| - 1];
    assert s == p + [x];
    var d := Distinct(s);
    FirstIndexAppend(p, x, d[i]);
    if x in Distinct(p) {
      FirstIndexAppend(p, x, d[j]);
      DistinctFirstSeenOrder(p, i, j);
    } else if j < |Distinct(p)| {
      FirstIndexAppend(p, x, d[j]);
      DistinctFirstSeenOrder(p, i, j);
    } else {
      assert d[j] == x && x !in p;
      assert s[..|p|] == p;
      FirstIndexUnique(s, x, |p|);
    }
  }

  /** `Distinct` of a list without repeats is that list. */
  lemma {:induction false} DistinctOfNoDup<T>(s: seq<T>)
    requires NoDup(s)
    ensures Distinct(s) == s
  {
    if s != [] {
      var p := s[..|s| - 1];
      DistinctOfNoDup(p);
      assert s[|s| - 1] !in p;
      assert p + [s[|s| - 1]] == s;
    }
  }

  /** A list without repeats holds each of its elements exactly once. */
  lemma {:induction false} NoDupOccursOnce<T>(s: seq<T>, x: T)
    requires NoDup(s)
    ensures multiset(s)[x] == if x in s then 1 else 0
  {
    if s != [] {
      var p := s[..|s| - 1];
      NoDupOccursOnce(p, x);
      assert s == p + [s[|s| - 1]];
      assert s[|s| - 1] !in p;
    }
  }

  /** `xs.flatMap(f)` for lists of lists. */
  function Flatten<T>(ss: seq<seq<T>>): (r: seq<T>)
    ensures forall i, j :: 0 <= i < |ss| && 0 <= j < |ss[i]| ==> ss[i][j] in r
    ensures forall k :: 0 <= k < |r| ==> exists i :: 0 <= i < |ss| && r[k] in ss[i]
  {
    if ss == [] then []
    else
      var p := ss[..|ss| - 1];
      assert forall i :: 0 <= i < |p| ==> p[i] == ss[i];
      Flatten(p) + ss[|ss| - 1]
  }

  /** `Map.prototype.set` on the entry list of a JavaScript `Map`: an existing key keeps its
      position and takes the new value, a new key goes to the end. */
  function MapSet<K(==), V>(entries: seq<(K, V)>, k: K, v: V): (r: seq<(K, V)>)
    ensures Keys(r) == if k in Keys(entries) then Keys(entries) else Keys(entries) + [k]
  {
    if entries == [] then [(k, v)]
    else if entries[0].0 == k then
      assert Keys(entries)[0] == k;
      assert Keys([(k, v)] + entries[1..]) == Keys(entries);
      [(k, v)] + entries[1..]
    else
      var rest := MapSet(entries[1..], k, v);
      assert Keys(entries) == [entries[0].0] + Keys(entries[1..]);
      assert Keys([entries[0]] + rest) == [entries[0].0] + Keys(rest);
      [entries[0]] + rest
  }

  function Keys<K, V>(entries: seq<(K, V)>): (r: seq<K>)
    ensures |r| == |entries|
  {
    seq(|entries|, i requires 0 <= i < |entries| => entries[i].0)
  }

  function Values<K, V>(entries: seq<(K, V)>): (r: seq<V>)
    ensures |r| == |entries|
  {
    seq(|entries|, i requires 0 <= i < |entries| => entries[i].1)
  }

  /** The entries of `new Map(pairs)`: `MapSet` applied to the pairs from left to right. */
  function MapOf<K(==), V>(pairs: seq<(K, V)>): seq<(K, V)> {
    if pairs == [] then []
    else
      var last := pairs[|pairs| - 1];
      MapSet(MapOf(pairs[..|pairs| - 1]), last.0, last.1)
  }

  /** The value of the last pair whose key is `k`. */
  function LastValue<K(==), V>(pairs: seq<(K, V)>, k: K): V
    requires k in Keys(pairs)
  {
    var last := pairs[|pairs| - 1];
    if last.0 == k then last.1
    else
      assert Keys(pairs) == Keys(pairs[..|pairs| - 1]) + [last.0];
      LastValue(pairs[..|pairs| - 1], k)
  }

  /** Independent description of the keys of `new Map(pairs)`: the distinct keys of `pairs`
      in first-seen order. */
  lemma {:induction false} MapOfKeys<K, V>(pairs: seq<(K, V)>)
    ensures Keys(MapOf(pairs)) == Distinct(Keys(pairs))
  {
    if pairs != [] {
      var p := pairs[..|pairs| - 1];
      MapOfKeys(p);
      assert Keys(pairs)[..|pairs| - 1] == Keys(p);
    }
  }

  /** The last pair with key `k` is one of the pairs. */
  lemma {:induction false} LastValueIn<K, V>(pairs: seq<(K, V)>, k: K)
    requires k in Keys(pairs)
    ensures (k, LastValue(pairs, k)) in pairs
  {
    var last := pairs[|pairs| - 1];
    if last.0 != k {
      var p := pairs[..|pairs| - 1];
      assert Keys(pairs) == Keys(p) + [last.0];
      LastValueIn(p, k);
    }
  }

  /** Every entry of `m` holds the value of the last pair of `pairs` with its key. */
  predicate LastWins<K(==), V(==)>(m: seq<(K, V)>, pairs: seq<(K, V)>) {
    forall e :: e in m ==> e.0 in Keys(pairs) && e.1 == LastValue(pairs, e.0)
  }

  /** Every entry of `new Map(pairs)` holds the value of the LAST pair with its key. */
  lemma {:induction false} MapOfLastWins<K, V>(pairs: seq<(K, V)>)
    ensures LastWins(MapOf(pairs), pairs)
  {
    if pairs != [] {
      var p := pairs[..|pairs| - 1];
      var last := pairs[|pairs| - 1];
      MapOfLastWins(p);
      MapOfNoDup(p);
      assert pairs == p + [(last.0, last.1)];
      LastWinsStep(MapOf(p), p, last.0, last.1);
    }
  }

  /** No key of `new Map(pairs)` is repeated. */
  lemma MapOfNoDup<K, V>(pairs: seq<(K, V)>)
    ensures NoDup(Keys(MapOf(pairs)))
  {
    MapOfKeys(pairs);
  }

  lemma LastWinsStep<K, V>(m: seq<(K, V)>, p: seq<(K, V)>, k: K, v: V)
    requires NoDup(Keys(m)) && LastWins(m, p)
    ensures LastWins(MapSet(m, k, v), p + [(k, v)])
  {
    var q := p + [(k, v)];
    MapSetValues(m, k, v);
    assert q[..|q| - 1] == p;
    assert Keys(q) == Keys(p) + [k];
    forall e | e in MapSet(m, k, v) ensures e.0 in Keys(q) && e.1 == LastValue(q, e.0) {
      if e.0 != k {
        assert e in m;
        assert LastValue(q, e.0) == LastValue(p, e.0);
      }
    }
  }

  /** After `MapSet`, the key `k` holds `v`, and every entry with another key is an old one. */
  lemma {:induction false} MapSetValues<K, V>(entries: seq<(K, V)>, k: K, v: V)
    requires NoDup(Keys(entries))
    ensures forall e :: e in MapSet(entries, k, v) ==> (e.0 == k ==> e.1 == v) && (e.0 != k ==> e in entries)
  {
    if entries == [] {
    } else if entries[0].0 != k {
      assert Keys(entries[1..]) == Keys(entries)[1..];
      MapSetValues(entries[1..], k, v);
    } else {
      forall j | 0 <= j < |entries[1..]| ensures entries[1..][j].0 != k && entries[1..][j] in entries {
        assert Keys(entries)[j + 1] != Keys(entries)[0];
      }
    }
  }

  lemma NoDupSnoc<T>(s: seq<T>, x: T)
    requires NoDup(s + [x])
    ensures NoDup(s) && x !in s
  {
    forall i | 0 <= i < |s| ensures s[i] != x {
      assert (s + [x])[i] == s[i] && (s + [x])[|s|] == x;
    }
    forall i, j | 0 <= i < j < |s| ensures s[i] != s[j] {
      assert (s + [x])[i] == s[i] && (s + [x])[j] == s[j];
    }
  }

  /** Setting a new key appends its entry. */
  lemma {:induction false} MapSetAbsent<K, V>(entries: seq<(K, V)>, k: K, v: V)
    requires k !in Keys(entries)
    ensures MapSet(entries, k, v) == entries + [(k, v)]
  {
    if entries != [] {
      assert Keys(entries) == [entries[0].0] + Keys(entries[1..]);
      MapSetAbsent(entries[1..], k, v);
      assert [entries[0]] + (entries[1..] + [(k, v)]) == entries + [(k, v)];
    }
  }

  /** `s.filter(x => x !== v)`. */
  function RemoveAll<T(==)>(s: seq<T>, v: T): (r: seq<T>)
    ensures |r| <= |s|
  {
    if s == [] then []
    else (if s[0] == v then [] else [s[0]]) + RemoveAll(s[1..], v)
  }

  /** What is left is exactly what was there and is not `v`. */
  lemma {:induction false} RemoveAllMembers<T>(s: seq<T>, v: T, x: T)
    ensures x in RemoveAll(s, v) <==> x in s && x != v
  {
    if s != [] {
      RemoveAllMembers(s[1..], v, x);
      assert s == [s[0]] + s[1..];
    }
  }

  /** Filtering distributes over concatenation, so the kept elements stay in their order. */
  lemma {:induction false} RemoveAllAppend<T>(a: seq<T>, b: seq<T>, v: T)
    ensures RemoveAll(a + b, v) == RemoveAll(a, v) + RemoveAll(b, v)
  {
    if a != [] {
      RemoveAllAppend(a[1..], b, v);
      assert (a + b)[0] == a[0];
      assert (a + b)[1..] == a[1..] + b;
    } else {
      assert a + b == b;
    }
  }

  /** Filtering out a value that is not there changes nothing. */
  lemma {:induction false} RemoveAllAbsent<T>(s: seq<T>, v: T)
    requires v !in s
    ensures RemoveAll(s, v) == s
  {
    if s != [] {
      RemoveAllAbsent(s[1..], v);
      assert [s[0]] + s[1..] == s;
    }
  }

  /** The values `f` keeps, in order: a loop that pushes `f(x).value` whenever `f(x)` is present. */
  function FilterMap<A, B>(xs: seq<A>, f: A -> Option<B>): seq<B> {
    if xs == [] then []
    else
      var last := f(xs[|xs| - 1]);
      FilterMap(xs[..|xs| - 1], f) + (if last.Some? then [last.value] else [])
  }

  lemma {:induction false} FilterMapAppend<A, B>(a: seq<A>, b: seq<A>, f: A -> Option<B>)
    ensures FilterMap(a + b, f) == FilterMap(a, f) + FilterMap(b, f)
  {
    if b == [] {
      assert a + b == a;
    } else {
      var b' := b[..|b| - 1];
      FilterMapAppend(a, b', f);
      assert (a + b)[..|a + b| - 1] == a + b';
      assert (a + b)[|a + b| - 1] == b[|b| - 1];
    }
  }

  /** One more element adds its value, if it has one, at the end. */
  lemma FilterMapSnoc<A, B>(xs: seq<A>, x: A, f: A -> Option<B>)
    ensures FilterMap(xs + [x], f) == FilterMap(xs, f) + (if f(x).Some? then [f(x).value] else [])
  {
    assert (xs + [x])[..|xs|] == xs;
  }

  /** Every value kept comes from some element. */
  lemma {:induction false} FilterMapFrom<A, B>(xs: seq<A>, f: A -> Option<B>)
    ensures forall k :: 0 <= k < |FilterMap(xs, f)| ==>
              exists i :: 0 <= i < |xs| && f(xs[i]) == Some(FilterMap(xs, f)[k])
  {
    if xs != [] {
      var p := xs[..|xs| - 1];
      FilterMapFrom(p, f);
      forall k | 0 <= k < |FilterMap(xs, f)|
        ensures exists i :: 0 <= i < |xs| && f(xs[i]) == Some(FilterMap(xs, f)[k])
      {
        if k < |FilterMap(p, f)| {
          var i :| 0 <= i < |p| && f(p[i]) == Some(FilterMap(p, f)[k]);
          assert xs[i] == p[i] && FilterMap(xs, f)[k] == FilterMap(p, f)[k];
          assert f(xs[i]) == Some(FilterMap(xs, f)[k]);
        } else {
          var i := |xs| - 1;
          assert f(xs[i]) == Some(FilterMap(xs, f)[k]);
        }
      }
    } else {
      assert FilterMap(xs, f) == [];
    }
  }

  /** The number of elements of `s` that start with `prefix`. */
  function CountPrefixed(s: seq<string>, prefix: string): nat {
    if s == [] then 0
    else CountPrefixed(s[..|s| - 1], prefix) + (if prefix <= s[|s| - 1] then 1 else 0)
  }

  lemma {:induction false} CountPrefixedAppend(a: seq<string>, b: seq<string>, prefix: string)
    ensures CountPrefixed(a + b, prefix) == CountPrefixed(a, prefix) + CountPrefixed(b, prefix)
  {
    if b != [] {
      var b' := b[..|b| - 1];
      CountPrefixedAppend(a, b', prefix);
      assert (a + b)[..|a + b| - 1] == a + b';
      assert (a + b)[|a + b| - 1] == b[|b| - 1];
    } else {
      assert a + b == a;
    }
  }

  /** Counting a prefix that every element has gives the length; one no element has gives zero. */
  lemma {:induction false} CountPrefixedAllOrNone(s: seq<string>, prefix: string)
    ensures (forall i :: 0 <= i < |s| ==> prefix <= s[i]) ==> CountPrefixed(s, prefix) == |s|
    ensures (forall i :: 0 <= i < |s| ==> !(prefix <= s[i])) ==> CountPrefixed(s, prefix) == 0
  {
    if s != [] {
      CountPrefixedAllOrNone(s[..|s| - 1], prefix);
    }
  }
}
