/** Sorting by a key that tells elements apart: one list per set. */
module Sorting {
  import opened Wrappers
  import opened Sums
  import opened Orders
  import opened Ledger
  import opened Coinbase
  import opened Queries

  ghost predicate TellsApart<T(!new)>(ts: set<T>, key: T -> (int, int)) {
    forall a, b | a in ts && b in ts && key(a) == key(b) :: a == b
  }

  ghost predicate InKeyOrder<T(!new)>(s: seq<T>, key: T -> (int, int)) {
    forall i, j | 0 <= i < j < |s| :: Precedes(key, s[i], s[j])
  }

  lemma LeastIsUnique<T(!new)>(ts: set<T>, key: T -> (int, int), a: T, b: T)
    requires TellsApart(ts, key) && IsLeast(ts, key, a) && IsLeast(ts, key, b)
    ensures a == b
  {
    assert Precedes(key, a, b) && Precedes(key, b, a);
    assert key(a) == (key(a).0, key(a).1) && key(b) == (key(b).0, key(b).1);
  }

  /** A list of the set in key order is the set's sorted list. */
  lemma {:induction false} SortedIsUnique<T(!new)>(ts: set<T>, key: T -> (int, int), s: seq<T>)
    requires TellsApart(ts, key) && Members(s) == ts && Distinct(s) && InKeyOrder(s, key)
    ensures s == Sorted(ts, key)
    decreases |s|
  {
    if s == [] {
      assert ts == {};
    } else {
      var m := s[0];
      assert m in Members(s);
      forall t | t in ts ensures Precedes(key, m, t) {
        var i :| 0 <= i < |s| && s[i] == t;
      }
      var n := Sorted(ts, key)[0];
      LeastIsUnique(ts, key, m, n);
      DistinctTail(s);
      assert Members(s[1..]) == ts - {m} by {
        assert s == [m] + s[1..];
      }
      SortedIsUnique(ts - {m}, key, s[1..]);
    }
  }

  lemma {:induction false} SortedInOrder<T(!new)>(ts: set<T>, key: T -> (int, int))
    ensures InKeyOrder(Sorted(ts, key), key)
    decreases |ts|
  {
    if ts != {} {
      var s := Sorted(ts, key);
      var m := s[0];
      var rest := Sorted(ts - {m}, key);
      assert s == [m] + rest;
      SortedInOrder(ts - {m}, key);
      SortedLists(ts - {m}, key);
      forall i, j | 0 <= i < j < |s| ensures Precedes(key, s[i], s[j]) {
        if i == 0 {
          assert rest[j - 1] in Members(rest);
        }
      }
    }
  }

  /** Insertion into a list in key order. */
  method PutInOrder<T(!new)>(s: seq<T>, t: T, key: T -> (int, int)) returns (out: seq<T>)
    requires InKeyOrder(s, key) && Distinct(s) && t !in s
    ensures InKeyOrder(out, key) && Distinct(out) && Members(out) == Members(s) + {t}
  {
    var i := 0;
    while i < |s| && Precedes(key, s[i], t)
      invariant 0 <= i <= |s|
      invariant forall j | 0 <= j < i :: Precedes(key, s[j], t)
    {
      i := i + 1;
    }
    out := s[..i] + [t] + s[i..];
    PutKeepsOrder(s, t, key, i);
    assert s == s[..i] + s[i..];
  }

  lemma PutKeepsOrder<T(!new)>(s: seq<T>, t: T, key: T -> (int, int), i: nat)
    requires InKeyOrder(s, key) && Distinct(s) && t !in s && i <= |s|
    requires forall j | 0 <= j < i :: Precedes(key, s[j], t)
    requires i < |s| ==> Precedes(key, t, s[i])
    ensures InKeyOrder(s[..i] + [t] + s[i..], key) && Distinct(s[..i] + [t] + s[i..])
  {
    var out := s[..i] + [t] + s[i..];
    forall a, b | 0 <= a < b < |out| ensures Precedes(key, out[a], out[b]) && out[a] != out[b] {
      assert a < i ==> out[a] == s[a];
      assert a > i ==> out[a] == s[a - 1];
      assert b < i ==> out[b] == s[b];
      assert b > i ==> out[b] == s[b - 1];
      assert b > i + 1 && a == i ==> Precedes(key, s[i], s[b - 1]);
    }
  }

  method SortByKey<T(!new)>(ts: seq<T>, key: T -> (int, int)) returns (out: seq<T>)
    requires Distinct(ts) && TellsApart(Members(ts), key)
    ensures out == Sorted(Members(ts), key)
  {
    out := [];
    for i := 0 to |ts|
      invariant InKeyOrder(out, key) && Distinct(out) && Members(out) == Members(ts[..i])
    {
      assert ts[i] !in Members(out);
      assert ts[..i + 1] == ts[..i] + [ts[i]];
      out := PutInOrder(out, ts[i], key);
    }
    assert ts[..|ts|] == ts;
    SortedIsUnique(Members(ts), key, out);
  }

  /** A set's elements, each once, in no stated order. */
  method ListOf<T(!new)>(ts: set<T>) returns (xs: seq<T>)
    ensures Distinct(xs) && Members(xs) == ts
  {
    xs := [];
    var left := ts;
    while left != {}
      invariant Distinct(xs) && Members(xs) == ts - left && left <= ts
      decreases |left|
    {
      var t :| t in left;
      DistinctSnoc(xs, t);
      xs := xs + [t];
      left := left - {t};
    }
  }

  lemma DistinctSnoc<T(!new)>(xs: seq<T>, t: T)
    requires Distinct(xs) && t !in Members(xs)
    ensures Distinct(xs + [t]) && Members(xs + [t]) == Members(xs) + {t}
  {
    DistinctJoin(xs, [t]);
  }

  lemma NumericTellsApart(ks: set<nat>)
    ensures TellsApart(ks, Numeric())
  {
    forall a, b | a in ks && b in ks && Numeric()(a) == Numeric()(b) ensures a == b {
      assert Numeric()(a).0 == a && Numeric()(b).0 == b;
    }
  }

  method SortedKeys(ks: set<nat>) returns (s: seq<nat>)
    ensures s == Ascending(ks)
  {
    var listed := ListOf(ks);
    NumericTellsApart(ks);
    s := SortByKey(listed, Numeric());
  }

  // ---------------------------------------------------------------------------
  // Live boxes
  // ---------------------------------------------------------------------------

  /** Box ids have one place each in the id order. */
  ghost predicate RanksApart(ctx: Ctx) {
    forall a, b | ctx.rank(a) == ctx.rank(b) :: a == b
  }

  ghost predicate RanksIds(ctx: Ctx, key: LiveKey) {
    forall l, m | key(l) == key(m) :: l.id == m.id
  }

  lemma LivesApart(ctx: Ctx, boxes: Boxes, p: Box -> bool, key: LiveKey)
    requires RanksIds(ctx, key)
    ensures TellsApart(LivesWhere(boxes, p), key)
  {
  }

  lemma ByRankRanks(ctx: Ctx)
    requires RanksApart(ctx)
    ensures RanksIds(ctx, ByRank(ctx)) && RanksIds(ctx, ByValue(ctx)) && RanksIds(ctx, ByRelease(ctx))
  {
    forall l, m | ByRank(ctx)(l) == ByRank(ctx)(m) ensures l.id == m.id {
      assert ByRank(ctx)(l).1 == ctx.rank(l.id) && ByRank(ctx)(m).1 == ctx.rank(m.id);
    }
    forall l, m | ByValue(ctx)(l) == ByValue(ctx)(m) ensures l.id == m.id {
      assert ByValue(ctx)(l).1 == ctx.rank(l.id) && ByValue(ctx)(m).1 == ctx.rank(m.id);
    }
    forall l, m | ByRelease(ctx)(l) == ByRelease(ctx)(m) ensures l.id == m.id {
      assert ByRelease(ctx)(l).1 == ctx.rank(l.id) && ByRelease(ctx)(m).1 == ctx.rank(m.id);
    }
  }

  /** A list with some taken out keeps its order. */
  lemma {:induction false} LessSpentOrdered(ls: seq<Live>, spent: set<BoxId>, key: LiveKey)
    requires InKeyOrder(ls, key) && Distinct(ls)
    ensures InKeyOrder(LessSpent(ls, spent), key) && Distinct(LessSpent(ls, spent))
  {
    if ls != [] {
      var rest := LessSpent(ls[1..], spent);
      LessSpentOrdered(ls[1..], spent, key);
      if ls[0].id !in spent {
        var out := LessSpent(ls, spent);
        assert out == [ls[0]] + rest;
        forall i, j | 0 <= i < j < |out| ensures Precedes(key, out[i], out[j]) && out[i] != out[j] {
          if i == 0 {
            assert rest[j - 1] in rest && rest[j - 1] in ls[1..];
            var k :| 0 <= k < |ls[1..]| && ls[1..][k] == rest[j - 1];
            assert ls[k + 1] == rest[j - 1];
          }
        }
      }
    }
  }
}
