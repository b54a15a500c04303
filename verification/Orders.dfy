/** Finite sets listed in a stated order. */
module Orders {
  import opened Sums

  predicate Precedes<T(!new)>(key: T -> (int, int), a: T, b: T) {
    key(a).0 < key(b).0 || (key(a).0 == key(b).0 && key(a).1 <= key(b).1)
  }

  ghost predicate IsLeast<T(!new)>(ts: set<T>, key: T -> (int, int), m: T) {
    m in ts && forall t | t in ts :: Precedes(key, m, t)
  }

  lemma {:induction false} HasLeast<T(!new)>(ts: set<T>, key: T -> (int, int))
    requires ts != {}
    ensures exists m :: IsLeast(ts, key, m)
    decreases |ts|
  {
    var t :| t in ts;
    var rest := ts - {t};
    if rest == {} {
      forall u | u in ts ensures Precedes(key, t, u) {
        assert u == t || u in rest;
      }
      assert IsLeast(ts, key, t);
    } else {
      HasLeast(rest, key);
      var m :| IsLeast(rest, key, m);
      var least := if Precedes(key, m, t) then m else t;
      forall u | u in ts ensures Precedes(key, least, u) {
        assert u == t || (u in rest && Precedes(key, m, u));
      }
      assert IsLeast(ts, key, least);
    }
  }

  /** The elements by ascending key. */
  ghost function Sorted<T(!new)>(ts: set<T>, key: T -> (int, int)): (s: seq<T>)
    decreases |ts|
  {
    if ts == {} then []
    else
      HasLeast(ts, key);
      var m :| IsLeast(ts, key, m);
      [m] + Sorted(ts - {m}, key)
  }

  lemma {:induction false} SortedLists<T(!new)>(ts: set<T>, key: T -> (int, int))
    ensures Members(Sorted(ts, key)) == ts
    ensures Distinct(Sorted(ts, key))
    decreases |ts|
  {
    if ts != {} {
      var s := Sorted(ts, key);
      var m := s[0];
      var rest := Sorted(ts - {m}, key);
      assert m in ts && s == [m] + rest;
      SortedLists(ts - {m}, key);
      assert m !in Members(rest);
      forall x ensures x in Members(s) <==> x in ts {
        assert x in s <==> x == m || x in rest;
        assert x in rest <==> x in Members(rest);
      }
    }
  }

  function Numeric(): nat -> (int, int) { (k: nat) => (k, 0) }

  /** Ascending keys. */
  ghost function Ascending(ks: set<nat>): seq<nat> { Sorted(ks, Numeric()) }

  lemma AscendingLists(ks: set<nat>)
    ensures Members(Ascending(ks)) == ks && Distinct(Ascending(ks))
  {
    SortedLists(ks, Numeric());
  }

  function Take<T>(s: seq<T>, limit: nat): (t: seq<T>)
    ensures forall x | x in t :: x in s
  {
    if |s| <= limit then s else s[..limit]
  }
}
