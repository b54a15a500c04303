/** Sums over the values of a map and over the elements of a sequence. */
module Sums {

  ghost function MapSum<K(!new), V(!new)>(m: map<K, V>, w: V -> int): int
    decreases |m|
  {
    if m.Keys == {} then 0
    else
      var k :| k in m;
      KeyCount(m, k);
      w(m[k]) + MapSum(m - {k}, w)
  }

  lemma KeyCount<K, V>(m: map<K, V>, k: K)
    requires k in m
    ensures |m - {k}| == |m| - 1
  {
    assert (m - {k}).Keys == m.Keys - {k};
    assert |m| == |m.Keys| && |m - {k}| == |(m - {k}).Keys|;
  }

  lemma {:induction false} MapSumRemove<K(!new), V(!new)>(m: map<K, V>, w: V -> int, k: K)
    requires k in m
    ensures MapSum(m, w) == w(m[k]) + MapSum(m - {k}, w)
    decreases |m|
  {
    var j :| j in m && MapSum(m, w) == w(m[j]) + MapSum(m - {j}, w);
    if j != k {
      KeyCount(m, j);
      KeyCount(m, k);
      MapSumRemove(m - {j}, w, k);
      MapSumRemove(m - {k}, w, j);
      assert m - {j} - {k} == m - {k} - {j};
    }
  }

  lemma MapSumInsert<K(!new), V(!new)>(m: map<K, V>, w: V -> int, k: K, v: V)
    requires k !in m
    ensures MapSum(m[k := v], w) == MapSum(m, w) + w(v)
  {
    MapSumRemove(m[k := v], w, k);
    assert m[k := v] - {k} == m;
  }

  lemma MapSumUpdate<K(!new), V(!new)>(m: map<K, V>, w: V -> int, k: K, v: V)
    requires k in m
    ensures MapSum(m[k := v], w) == MapSum(m, w) - w(m[k]) + w(v)
  {
    MapSumRemove(m, w, k);
    MapSumRemove(m[k := v], w, k);
    assert m[k := v] - {k} == m - {k};
  }

  lemma {:induction false} MapSumSame<K(!new), V(!new)>(m: map<K, V>, w: V -> int, u: V -> int)
    requires forall k | k in m :: w(m[k]) == u(m[k])
    ensures MapSum(m, w) == MapSum(m, u)
    decreases |m|
  {
    if m.Keys != {} {
      var k :| k in m;
      KeyCount(m, k);
      MapSumRemove(m, w, k);
      MapSumRemove(m, u, k);
      MapSumSame(m - {k}, w, u);
    }
  }

  lemma {:induction false} MapSumBounds<K(!new), V(!new)>(m: map<K, V>, w: V -> int, k: K)
    requires forall j | j in m :: w(m[j]) >= 0
    ensures MapSum(m, w) >= 0
    ensures k in m ==> w(m[k]) <= MapSum(m, w)
    decreases |m|
  {
    if m.Keys != {} {
      var j :| j in m;
      var i := if k in m then k else j;
      KeyCount(m, i);
      MapSumRemove(m, w, i);
      MapSumBounds(m - {i}, w, i);
    }
  }

  lemma {:induction false} MapSumNothing<K(!new), V(!new)>(m: map<K, V>, w: V -> int)
    requires forall k | k in m :: w(m[k]) == 0
    ensures MapSum(m, w) == 0
    decreases |m|
  {
    if m.Keys != {} {
      var k :| k in m;
      KeyCount(m, k);
      MapSumRemove(m, w, k);
      MapSumNothing(m - {k}, w);
    }
  }

  // ---------------------------------------------------------------------------
  // Sequences
  // ---------------------------------------------------------------------------

  function SeqSum<V(!new)>(s: seq<V>, w: V -> int): int {
    if s == [] then 0 else w(s[0]) + SeqSum(s[1..], w)
  }

  lemma {:induction false} SeqSumConcat<V(!new)>(s: seq<V>, t: seq<V>, w: V -> int)
    ensures SeqSum(s + t, w) == SeqSum(s, w) + SeqSum(t, w)
  {
    if s == [] {
      assert s + t == t;
    } else {
      assert (s + t)[1..] == s[1..] + t;
      SeqSumConcat(s[1..], t, w);
    }
  }

  lemma {:induction false} SeqSumSame<V(!new)>(s: seq<V>, w: V -> int, u: V -> int)
    requires forall v | v in s :: w(v) == u(v)
    ensures SeqSum(s, w) == SeqSum(s, u)
  {
    if s != [] {
      SeqSumSame(s[1..], w, u);
    }
  }

  lemma {:induction false} SeqSumBounds<V(!new)>(s: seq<V>, w: V -> int)
    requires forall v | v in s :: w(v) >= 0
    ensures SeqSum(s, w) >= 0
    ensures forall v | v in s :: w(v) <= SeqSum(s, w)
  {
    if s != [] {
      SeqSumBounds(s[1..], w);
    }
  }

  lemma {:induction false} SeqSumZero<V(!new)>(s: seq<V>, w: V -> int)
    requires forall v | v in s :: w(v) == 0
    ensures SeqSum(s, w) == 0
  {
    if s != [] {
      SeqSumZero(s[1..], w);
    }
  }

  ghost predicate Distinct<T(!new)>(s: seq<T>) {
    forall i, j | 0 <= i < j < |s| :: s[i] != s[j]
  }

  /** The values a map holds under a sequence of its keys. */
  ghost function ValuesAt<K(!new), V(!new)>(m: map<K, V>, ks: seq<K>): (vs: seq<V>)
    requires forall k | k in ks :: k in m
    ensures |vs| == |ks|
    ensures forall i | 0 <= i < |ks| :: vs[i] == m[ks[i]]
  {
    if ks == [] then [] else [m[ks[0]]] + ValuesAt(m, ks[1..])
  }

  ghost function Members<T(!new)>(s: seq<T>): set<T> { set x | x in s }

  lemma {:induction false} ValuesAtAgree<K(!new), V(!new)>(m: map<K, V>, n: map<K, V>, ks: seq<K>)
    requires forall k | k in ks :: k in m && k in n && m[k] == n[k]
    ensures ValuesAt(m, ks) == ValuesAt(n, ks)
  {
  }

  lemma DistinctTail<T(!new)>(s: seq<T>)
    requires s != [] && Distinct(s)
    ensures s[0] !in s[1..] && Distinct(s[1..])
  {
  }

  lemma RemovedOneByOne<K(!new), V(!new)>(m: map<K, V>, ks: seq<K>)
    requires ks != []
    ensures m - Members(ks) == (m - {ks[0]}) - Members(ks[1..])
  {
    assert Members(ks) == {ks[0]} + Members(ks[1..]);
  }

  /** Distinct keys taken out take out exactly their values. */
  lemma {:induction false} MapSumRemoveAll<K(!new), V(!new)>(m: map<K, V>, w: V -> int, ks: seq<K>)
    requires Distinct(ks) && forall k | k in ks :: k in m
    ensures MapSum(m - Members(ks), w) == MapSum(m, w) - SeqSum(ValuesAt(m, ks), w)
    decreases |ks|
  {
    if ks == [] {
      assert m - Members(ks) == m;
    } else {
      var k, rest := ks[0], ks[1..];
      var n := m - {k};
      DistinctTail(ks);
      MapSumRemove(m, w, k);
      MapSumRemoveAll(n, w, rest);
      ValuesAtAgree(m, n, rest);
      RemovedOneByOne(m, ks);
      assert ValuesAt(m, ks)[1..] == ValuesAt(m, rest);
    }
  }

  ghost predicate NoCommon<T(!new)>(a: seq<T>, b: seq<T>) {
    forall i, j | 0 <= i < |a| && 0 <= j < |b| :: a[i] != b[j]
  }

  lemma DistinctJoin<T(!new)>(a: seq<T>, b: seq<T>)
    requires Distinct(a) && Distinct(b) && NoCommon(a, b)
    ensures Distinct(a + b)
  {
    var c := a + b;
    forall i, j | 0 <= i < j < |c| ensures c[i] != c[j] {
      assert c[i] == if i < |a| then a[i] else b[i - |a|];
      assert c[j] == if j < |a| then a[j] else b[j - |a|];
    }
  }

  /** A map that agrees with another where both are defined and adds nothing elsewhere sums to the same. */
  lemma {:induction false} MapSumGrown<K(!new), V(!new), U(!new)>(m: map<K, V>, w: V -> int, n: map<K, U>, u: U -> int)
    requires m.Keys <= n.Keys
    requires forall k | k in m :: u(n[k]) == w(m[k])
    requires forall k | k in n && k !in m :: u(n[k]) == 0
    ensures MapSum(n, u) == MapSum(m, w)
    decreases |n|
  {
    if n.Keys != {} {
      var k :| k in n;
      KeyCount(n, k);
      MapSumRemove(n, u, k);
      if k in m {
        MapSumRemove(m, w, k);
        MapSumGrown(m - {k}, w, n - {k}, u);
      } else {
        MapSumGrown(m, w, n - {k}, u);
      }
    }
  }
}
