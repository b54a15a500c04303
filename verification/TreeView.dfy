/** Reads of the tree through a session: walks and pages. */
module TreeViews {
  import opened Wrappers
  import opened Sums
  import opened Orders
  import opened Sorting
  import opened Tree

  /** A fixed-length key read big-endian, so the bytewise order is numeric. Zero and `top` are the sentinels. */
  type LeafKey = nat

  type Leaves = map<LeafKey, TreeValue>

  /** One answer: the leaf and the next leaf's key, or the keys either side. */
  datatype Lookup =
    | Found(value: TreeValue, nextKey: LeafKey)
    | Absent(prevKey: LeafKey, nextKey: LeafKey)

  /** The keys that carry a prefix: an interval that holds no sentinel. */
  datatype Range = Range(first: LeafKey, last: LeafKey)

  datatype Entry = Entry(key: LeafKey, value: TreeValue)

  datatype Page = Page(entries: seq<Entry>, next: Option<LeafKey>)

  predicate InRange(key: LeafKey, range: Range) { range.first <= key <= range.last }

  predicate RangeOk(range: Range, top: nat) { 0 < range.first <= range.last < top }

  function Keys(es: seq<Entry>): (ks: seq<LeafKey>)
    ensures |ks| == |es|
    ensures forall i | 0 <= i < |es| :: ks[i] == es[i].key
  {
    if es == [] then [] else [es[0].key] + Keys(es[1..])
  }

  // ---------------------------------------------------------------------------
  // An honest session
  // ---------------------------------------------------------------------------

  ghost predicate NextIs(leaves: Leaves, top: nat, key: LeafKey, next: LeafKey) {
    && key < next <= top
    && (next == top || next in leaves)
    && forall k | key < k < next :: k !in leaves
  }

  ghost predicate PrevIs(leaves: Leaves, key: LeafKey, prev: LeafKey) {
    && prev < key
    && (prev == 0 || prev in leaves)
    && forall k | prev < k < key :: k !in leaves
  }

  ghost predicate HonestAt(session: LeafKey -> Lookup, leaves: Leaves, top: nat, key: LeafKey) {
    match session(key)
    case Found(value, next) => key in leaves && leaves[key] == value && NextIs(leaves, top, key, next)
    case Absent(prev, next) => key !in leaves && PrevIs(leaves, key, prev) && NextIs(leaves, top, key, next)
  }

  /** Every lookup of a key between the sentinels answers the leaves. */
  ghost predicate Honest(session: LeafKey -> Lookup, leaves: Leaves, top: nat) {
    && (forall key | key in leaves :: 0 < key < top)
    && (forall key | 0 < key < top :: HonestAt(session, leaves, top, key))
  }

  /** A session's keys are of the tree's length, whatever it answers. */
  ghost predicate FixedLength(session: LeafKey -> Lookup, top: nat) {
    forall key :: session(key).nextKey <= top
  }

  // ---------------------------------------------------------------------------
  // What a range holds
  // ---------------------------------------------------------------------------

  /** The leaves from `start` on that a read of the range takes. */
  ghost function LeavesFrom(leaves: Leaves, range: Range, start: LeafKey, within: LeafKey -> bool): set<LeafKey> {
    set k | k in leaves && start <= k && InRange(k, range) && within(k)
  }

  ghost function EntriesAt(leaves: Leaves, ks: seq<LeafKey>): (es: seq<Entry>)
    requires forall k | k in ks :: k in leaves
    ensures Keys(es) == ks
    ensures forall i | 0 <= i < |ks| :: es[i] == Entry(ks[i], leaves[ks[i]])
  {
    if ks == [] then [] else [Entry(ks[0], leaves[ks[0]])] + EntriesAt(leaves, ks[1..])
  }

  /** The entries a read takes, in key order. */
  ghost function Listing(leaves: Leaves, range: Range, start: LeafKey, within: LeafKey -> bool): (es: seq<Entry>)
    ensures Keys(es) == Ascending(LeavesFrom(leaves, range, start, within))
  {
    ListedAreLeaves(leaves, range, start, within);
    EntriesAt(leaves, Ascending(LeavesFrom(leaves, range, start, within)))
  }

  lemma ListedAreLeaves(leaves: Leaves, range: Range, start: LeafKey, within: LeafKey -> bool)
    ensures forall k | k in Ascending(LeavesFrom(leaves, range, start, within)) ::
      k in LeavesFrom(leaves, range, start, within)
  {
    var all := LeavesFrom(leaves, range, start, within);
    AscendingLists(all);
    forall k | k in Ascending(all) ensures k in all {
      assert k in Members(Ascending(all));
    }
  }

  ghost predicate Rising(ks: seq<LeafKey>) {
    forall i, j | 0 <= i < j < |ks| :: ks[i] < ks[j]
  }

  lemma RisingIsSorted(ks: seq<LeafKey>)
    requires Rising(ks)
    ensures ks == Ascending(Members(ks))
  {
    forall i, j | 0 <= i < j < |ks| ensures Precedes(Numeric(), ks[i], ks[j]) && ks[i] != ks[j] {
      assert Numeric()(ks[i]).0 == ks[i] && Numeric()(ks[j]).0 == ks[j];
    }
    NumericTellsApart(Members(ks));
    SortedIsUnique(Members(ks), Numeric(), ks);
  }

  lemma AscendingRises(ks: set<LeafKey>)
    ensures Rising(Ascending(ks))
  {
    var s := Ascending(ks);
    SortedInOrder(ks, Numeric());
    SortedLists(ks, Numeric());
    forall i, j | 0 <= i < j < |s| ensures s[i] < s[j] {
      assert Precedes(Numeric(), s[i], s[j]) && s[i] != s[j];
      assert Numeric()(s[i]).0 == s[i] && Numeric()(s[j]).0 == s[j];
    }
  }

  lemma RisingJoin(a: seq<LeafKey>, b: seq<LeafKey>, between: LeafKey)
    requires Rising(a) && Rising(b)
    requires forall k | k in a :: k < between
    requires forall k | k in b :: between <= k
    ensures Rising(a + b)
  {
    forall i, j | 0 <= i < j < |a + b| ensures (a + b)[i] < (a + b)[j] {
      assert i < |a| ==> a[i] in a;
      assert j >= |a| ==> b[j - |a|] in b;
    }
  }

  ghost function Below(all: set<LeafKey>, next: LeafKey): set<LeafKey> { set k | k in all && k < next }

  ghost function NotBelow(all: set<LeafKey>, next: LeafKey): set<LeafKey> { set k | k in all && k >= next }

  lemma Listed(ks: set<LeafKey>)
    ensures Rising(Ascending(ks)) && Members(Ascending(ks)) == ks && forall k :: k in Ascending(ks) <==> k in ks
  {
    AscendingLists(ks);
    AscendingRises(ks);
    forall k ensures k in Ascending(ks) <==> k in ks {
      assert k in Ascending(ks) <==> k in Members(Ascending(ks));
    }
  }

  /** A set listed is its part below a key listed, then the rest. */
  lemma ListedInParts(all: set<LeafKey>, next: LeafKey)
    ensures Ascending(all) == Ascending(Below(all, next)) + Ascending(NotBelow(all, next))
  {
    Listed(Below(all, next));
    Listed(NotBelow(all, next));
    RisingJoin(Ascending(Below(all, next)), Ascending(NotBelow(all, next)), next);
    PartsAreAll(all, next, Ascending(Below(all, next)), Ascending(NotBelow(all, next)));
    RisingIsSorted(Ascending(Below(all, next)) + Ascending(NotBelow(all, next)));
  }

  lemma PartsAreAll(all: set<LeafKey>, next: LeafKey, a: seq<LeafKey>, b: seq<LeafKey>)
    requires forall k :: k in a <==> k in Below(all, next)
    requires forall k :: k in b <==> k in NotBelow(all, next)
    ensures Members(a + b) == all
  {
    forall k: LeafKey ensures k in Members(a + b) <==> k in all {
      assert k in a + b <==> k in a || k in b;
      assert k in all <==> k in Below(all, next) || k in NotBelow(all, next);
    }
  }

  // ---------------------------------------------------------------------------
  // A walk's progress
  // ---------------------------------------------------------------------------

  /** A read that stops at a height: within the range, what it admits is an initial part of the keys. */
  ghost predicate StopsOnce(range: Range, within: LeafKey -> bool) {
    forall j, k | InRange(j, range) && InRange(k, range) && j <= k && within(k) :: within(j)
  }

  predicate Everything(key: LeafKey) { true }

  /** The entries found so far, of any session: rising keys of the range, below the next. */
  ghost predicate Walking(range: Range, within: LeafKey -> bool, start: LeafKey, top: nat, es: seq<Entry>,
    next: LeafKey) {
    && start < next <= top
    && Rising(Keys(es))
    && forall e | e in es :: start <= e.key < next && InRange(e.key, range) && within(e.key)
  }

  /** Of an honest one: everything the read takes below `next` is listed, and `next` is a leaf or the end. */
  ghost predicate Reached(
    leaves: Leaves, range: Range, within: LeafKey -> bool, start: LeafKey, top: nat, es: seq<Entry>, next: LeafKey)
  {
    && (next == top || next in leaves)
    && (forall e | e in es :: e.key in leaves && leaves[e.key] == e.value)
    && Members(Keys(es)) == Below(LeavesFrom(leaves, range, start, within), next)
  }

  lemma KeysSnoc(es: seq<Entry>, e: Entry)
    ensures Keys(es + [e]) == Keys(es) + [e.key]
    ensures Members(Keys(es + [e])) == Members(Keys(es)) + {e.key}
  {
    var a := Keys(es + [e]);
    assert a == Keys(es) + [e.key];
    assert forall k :: k in a <==> k in Keys(es) || k == e.key;
  }

  /** Whether the walk goes on to a next key. */
  predicate Goes(next: LeafKey, top: nat, range: Range, within: LeafKey -> bool) {
    0 < next < top && InRange(next, range) && within(next)
  }

  lemma WalksFurther(
    range: Range, within: LeafKey -> bool, start: LeafKey, top: nat, es: seq<Entry>, next: LeafKey, value: TreeValue,
    after: LeafKey)
    requires Walking(range, within, start, top, es, next) && Goes(next, top, range, within) && next < after <= top
    ensures Walking(range, within, start, top, es + [Entry(next, value)], after)
  {
    KeysSnoc(es, Entry(next, value));
    forall i | 0 <= i < |es| ensures Keys(es)[i] < next {
      assert es[i] in es;
    }
  }

  lemma ReachesFurther(
    leaves: Leaves, range: Range, within: LeafKey -> bool, start: LeafKey, top: nat, es: seq<Entry>, next: LeafKey,
    after: LeafKey)
    requires Reached(leaves, range, within, start, top, es, next) && start < next && Goes(next, top, range, within)
    requires next in leaves && NextIs(leaves, top, next, after)
    ensures Reached(leaves, range, within, start, top, es + [Entry(next, leaves[next])], after)
  {
    var e := Entry(next, leaves[next]);
    KeysSnoc(es, e);
    var all := LeavesFrom(leaves, range, start, within);
    forall k ensures k in Below(all, after) <==> k in Below(all, next) + {next} {
      assert next < k < after ==> k !in leaves;
    }
  }

  lemma FirstReached(
    leaves: Leaves, range: Range, within: LeafKey -> bool, start: LeafKey, top: nat, es: seq<Entry>, next: LeafKey)
    requires InRange(start, range) && NextIs(leaves, top, start, next)
    requires es == if start in leaves && within(start) then [Entry(start, leaves[start])] else []
    ensures Reached(leaves, range, within, start, top, es, next)
  {
    var all := LeavesFrom(leaves, range, start, within);
    forall k ensures k in Members(Keys(es)) <==> k in Below(all, next) {
      assert start < k < next ==> k !in leaves;
    }
  }

  /** Where the walk stops, it holds the first of what the read takes. */
  lemma WalkEnds(
    leaves: Leaves, range: Range, limit: nat, within: LeafKey -> bool, start: LeafKey, top: nat, es: seq<Entry>,
    next: LeafKey)
    requires StopsOnce(range, within) && RangeOk(range, top) && InRange(start, range)
      && (forall k | k in leaves :: k < top)
    requires Walking(range, within, start, top, es, next) && Reached(leaves, range, within, start, top, es, next)
    requires |es| == limit || (|es| < limit && !Goes(next, top, range, within))
    ensures es == Take(Listing(leaves, range, start, within), limit)
    ensures Goes(next, top, range, within) <==> |Listing(leaves, range, start, within)| > |es|
    ensures Goes(next, top, range, within) ==> Listing(leaves, range, start, within)[|es|].key == next
  {
    var all := LeavesFrom(leaves, range, start, within);
    var full := Listing(leaves, range, start, within);
    ListedInParts(all, next);
    RisingIsSorted(Keys(es));
    var rest := Ascending(NotBelow(all, next));
    AscendingLists(NotBelow(all, next));
    RestStarts(leaves, range, within, start, top, next);
    assert Keys(full) == Keys(es) + rest;
    ListedAreLeaves(leaves, range, start, within);
    forall i | 0 <= i < |es| ensures es[i] == full[i] {
      assert es[i] in es && Keys(full)[i] == Keys(es)[i];
    }
    if Goes(next, top, range, within) {
      assert Keys(full)[|es|] == rest[0];
    }
  }

  /** What is left of a read begins at the walk's next key, or is nothing. */
  lemma RestStarts(leaves: Leaves, range: Range, within: LeafKey -> bool, start: LeafKey, top: nat, next: LeafKey)
    requires StopsOnce(range, within) && RangeOk(range, top) && InRange(start, range)
      && (forall k | k in leaves :: k < top)
    requires start < next <= top && (next == top || next in leaves)
    ensures var rest := Ascending(NotBelow(LeavesFrom(leaves, range, start, within), next));
      if Goes(next, top, range, within) then rest != [] && rest[0] == next else rest == []
  {
    var over := NotBelow(LeavesFrom(leaves, range, start, within), next);
    var rest := Ascending(over);
    Listed(over);
    if Goes(next, top, range, within) {
      assert next in rest;
      var i :| 0 <= i < |rest| && rest[i] == next;
      assert rest[0] in rest;
    } else {
      forall k | k in LeavesFrom(leaves, range, start, within) ensures k < next {
        assert next <= k ==> InRange(next, range) && next < top;
      }
      assert over == {};
    }
  }

  lemma OneKeyMore(before: set<LeafKey>, after: set<LeafKey>, key: LeafKey)
    requires after <= before + {key}
    ensures |after| <= |before| + 1
  {
    if key in after {
      SubsetCard(after - {key}, before);
    } else {
      SubsetCard(after, before);
    }
  }

  lemma {:induction false} SubsetCard(a: set<LeafKey>, b: set<LeafKey>)
    requires a <= b
    ensures |a| <= |b|
  {
    if a != {} {
      var x :| x in a;
      SubsetCard(a - {x}, b - {x});
    }
  }

  // ---------------------------------------------------------------------------
  // The view
  // ---------------------------------------------------------------------------

  class TreeView {
    const session: LeafKey -> Lookup
    const top: nat
    var memo: map<LeafKey, Lookup>

    constructor (session: LeafKey -> Lookup, top: nat)
      ensures this.session == session && this.top == top && memo == map[] && Valid()
    {
      this.session := session;
      this.top := top;
      memo := map[];
    }

    /** What is memoised is what the session answered, and in order. */
    ghost predicate Valid()
      reads this
    {
      forall key | key in memo :: memo[key] == session(key) && InOrder(key, memo[key])
    }

    predicate InOrder(key: LeafKey, answer: Lookup) {
      answer.nextKey > key && (answer.Absent? ==> answer.prevKey < key)
    }

    /** A key is asked once; an answer that contradicts the order is refused as it arrives. */
    method Look(key: LeafKey) returns (r: Option<Lookup>)
      requires Valid()
      modifies this
      ensures Valid() && old(memo).Keys <= memo.Keys <= old(memo).Keys + {key}
      ensures |memo| <= |old(memo)| + 1
      ensures r == if InOrder(key, session(key)) then Some(session(key)) else None
    {
      if key in memo {
        return Some(memo[key]);
      }
      var answer := session(key);
      if !InOrder(key, answer) {
        return None;
      }
      memo := memo[key := answer];
      OneKeyMore(old(memo).Keys, memo.Keys, key);
      r := Some(answer);
    }

    lemma LooksHonest(leaves: Leaves, key: LeafKey)
      requires Honest(session, leaves, top) && 0 < key < top
      ensures InOrder(key, session(key)) && NextIs(leaves, top, key, session(key).nextKey)
      ensures session(key).Found? <==> key in leaves
      ensures key in leaves ==> session(key).value == leaves[key]
    {
      assert HonestAt(session, leaves, top, key);
    }

    /** The walk's first lookup. */
    method Begin(range: Range, within: LeafKey -> bool, start: LeafKey, ghost leaves: Leaves)
      returns (r: Option<(seq<Entry>, LeafKey)>)
      requires Valid() && RangeOk(range, top) && InRange(start, range) && FixedLength(session, top)
      modifies this
      ensures Valid() && old(memo).Keys <= memo.Keys && |memo| <= |old(memo)| + 1
      ensures r.Some? ==> |r.value.0| <= 1 && Walking(range, within, start, top, r.value.0, r.value.1)
      ensures Honest(session, leaves, top) ==>
        r.Some? && Reached(leaves, range, within, start, top, r.value.0, r.value.1)
    {
      var first := Look(start);
      if first.None? {
        if Honest(session, leaves, top) {
          LooksHonest(leaves, start);
        }
        return None;
      }
      var es := if first.value.Found? && within(start) then [Entry(start, first.value.value)] else [];
      var next := first.value.nextKey;
      if Honest(session, leaves, top) {
        LooksHonest(leaves, start);
        FirstReached(leaves, range, within, start, top, es, next);
      }
      r := Some((es, next));
    }

    /** One entry more: none where the tree names a next key and holds no leaf for it. */
    method Advance(
      range: Range, within: LeafKey -> bool, start: LeafKey, es: seq<Entry>, next: LeafKey, ghost leaves: Leaves)
      returns (r: Option<(seq<Entry>, LeafKey)>)
      requires Valid() && FixedLength(session, top) && Walking(range, within, start, top, es, next)
        && Goes(next, top, range, within)
      modifies this
      ensures Valid() && old(memo).Keys <= memo.Keys && |memo| <= |old(memo)| + 1
      ensures r.Some? ==>
        |r.value.0| == |es| + 1 && next < r.value.1 && Walking(range, within, start, top, r.value.0, r.value.1)
      ensures Honest(session, leaves, top) && Reached(leaves, range, within, start, top, es, next) ==>
        r.Some? && Reached(leaves, range, within, start, top, r.value.0, r.value.1)
    {
      var step := Look(next);
      if Honest(session, leaves, top) && Reached(leaves, range, within, start, top, es, next) {
        LooksHonest(leaves, next);
        ReachesFurther(leaves, range, within, start, top, es, next, session(next).nextKey);
      }
      if step.None? || step.value.Absent? {
        return None;
      }
      WalksFurther(range, within, start, top, es, next, step.value.value, step.value.nextKey);
      r := Some((es + [Entry(next, step.value.value)], step.value.nextKey));
    }

    /**
     * The range's leaves in key order from `start`, at most `limit` of them: none where the tree
     * contradicts itself. It ends against any session, because the next key strictly rises.
     */
    method Walk(range: Range, limit: nat, within: LeafKey -> bool, start: LeafKey, ghost leaves: Leaves)
      returns (r: Option<(seq<Entry>, LeafKey)>)
      requires Valid() && RangeOk(range, top) && InRange(start, range) && limit > 0 && FixedLength(session, top)
      modifies this
      ensures Valid() && old(memo).Keys <= memo.Keys && |memo| <= |old(memo)| + 1 + limit
      ensures r.Some? ==> |r.value.0| <= limit && Walking(range, within, start, top, r.value.0, r.value.1)
      ensures Honest(session, leaves, top) && StopsOnce(range, within) ==>
        r.Some? && WalkedTo(leaves, range, limit, within, start, r.value.0, r.value.1)
    {
      var begun := Begin(range, within, start, leaves);
      if begun.None? {
        return None;
      }
      var es, next := begun.value.0, begun.value.1;
      while |es| < limit && Goes(next, top, range, within)
        invariant Valid() && old(memo).Keys <= memo.Keys && |memo| <= |old(memo)| + 1 + |es|
        invariant |es| <= limit && Walking(range, within, start, top, es, next)
        invariant Honest(session, leaves, top) ==> Reached(leaves, range, within, start, top, es, next)
        decreases top - next
      {
        var step := Advance(range, within, start, es, next, leaves);
        if step.None? {
          return None;
        }
        es, next := step.value.0, step.value.1;
      }
      if Honest(session, leaves, top) && StopsOnce(range, within) {
        WalkEnds(leaves, range, limit, within, start, top, es, next);
      }
      r := Some((es, next));
    }

    /** The first `limit` of what the read takes, and the key after them. */
    ghost predicate WalkedTo(
      leaves: Leaves, range: Range, limit: nat, within: LeafKey -> bool, start: LeafKey, es: seq<Entry>, next: LeafKey)
    {
      var full := Listing(leaves, range, start, within);
      && es == Take(full, limit)
      && (Goes(next, top, range, within) <==> |full| > |es|)
      && (Goes(next, top, range, within) ==> full[|es|].key == next)
    }

    /** The walk as a page: refused for a limit of zero and for a start outside the range. */
    method PageRange(range: Range, from: Option<LeafKey>, limit: nat, ghost leaves: Leaves) returns (r: Option<Page>)
      requires Valid() && RangeOk(range, top) && FixedLength(session, top)
      modifies this
      ensures Valid() && old(memo).Keys <= memo.Keys && |memo| <= |old(memo)| + 1 + limit
      ensures limit == 0 || (from.Some? && !InRange(from.value, range)) ==> r.None?
      ensures r.Some? ==> |r.value.entries| <= limit && Rising(Keys(r.value.entries))
      ensures Honest(session, leaves, top) && limit > 0 && (from.Some? ==> InRange(from.value, range)) ==>
        r == Some(PageOf(leaves, range, if from.Some? then from.value else range.first, limit))
    {
      if limit == 0 || (from.Some? && !InRange(from.value, range)) {
        return None;
      }
      var start := if from.Some? then from.value else range.first;
      var walked := Walk(range, limit, Everything, start, leaves);
      if walked.None? {
        return None;
      }
      var es, last := walked.value.0, walked.value.1;
      r := Some(Page(es, if es != [] && 0 < last < top && InRange(last, range) then Some(last) else None));
    }
  }

  /** A page: the first `limit` entries from `start`, and the first key not taken, or none where the range ends. */
  ghost function PageOf(leaves: Leaves, range: Range, start: LeafKey, limit: nat): Page {
    var full := Listing(leaves, range, start, Everything);
    Page(Take(full, limit), if |full| > limit then Some(full[limit].key) else None)
  }

  // ---------------------------------------------------------------------------
  // Pages chained
  // ---------------------------------------------------------------------------

  /** What a page leaves to its `next` is the listing from there. */
  lemma RestOfListing(leaves: Leaves, range: Range, start: LeafKey, limit: nat)
    requires |Listing(leaves, range, start, Everything)| > limit
    ensures var full := Listing(leaves, range, start, Everything);
      full[limit..] == Listing(leaves, range, full[limit].key, Everything)
  {
    var full := Listing(leaves, range, start, Everything);
    var all := LeavesFrom(leaves, range, start, Everything);
    var next := Keys(full)[limit];
    Listed(all);
    assert next in Keys(full);
    LeavesLater(leaves, range, start, next);
    Listed(Below(all, next));
    Listed(NotBelow(all, next));
    ListedInParts(all, next);
    TailFrom(Keys(full), Ascending(Below(all, next)), Ascending(NotBelow(all, next)), limit);
    SameTail(leaves, range, start, next, limit);
  }

  lemma LeavesLater(leaves: Leaves, range: Range, start: LeafKey, next: LeafKey)
    requires start <= next
    ensures LeavesFrom(leaves, range, next, Everything) == NotBelow(LeavesFrom(leaves, range, start, Everything), next)
  {
  }

  lemma SameTail(leaves: Leaves, range: Range, start: LeafKey, next: LeafKey, i: nat)
    requires i < |Listing(leaves, range, start, Everything)|
    requires Keys(Listing(leaves, range, start, Everything))[i..] == Keys(Listing(leaves, range, next, Everything))
    ensures Listing(leaves, range, start, Everything)[i..] == Listing(leaves, range, next, Everything)
  {
    var full, later := Listing(leaves, range, start, Everything), Listing(leaves, range, next, Everything);
    forall j | 0 <= j < |later| ensures full[i..][j] == later[j] {
      assert Keys(full)[i..][j] == Keys(later)[j];
      ValueListed(leaves, range, start, i + j);
      ValueListed(leaves, range, next, j);
    }
  }

  lemma ValueListed(leaves: Leaves, range: Range, start: LeafKey, i: nat)
    requires i < |Listing(leaves, range, start, Everything)|
    ensures var e := Listing(leaves, range, start, Everything)[i]; e.key in leaves && e.value == leaves[e.key]
  {
    ListedAreLeaves(leaves, range, start, Everything);
    var ks := Ascending(LeavesFrom(leaves, range, start, Everything));
    assert ks[i] in ks;
  }

  /** A rising list's parts around the key at a place are cut at that place. */
  lemma TailFrom(ks: seq<LeafKey>, a: seq<LeafKey>, b: seq<LeafKey>, i: nat)
    requires Rising(ks) && ks == a + b && i < |ks|
    requires forall k | k in a :: k < ks[i]
    requires forall k | k in b :: ks[i] <= k
    ensures |a| == i && ks[i..] == b
  {
    forall j | 0 <= j < |a| ensures a[j] < ks[i] {
      assert a[j] in a;
    }
    forall j | 0 <= j < |b| ensures ks[i] <= b[j] {
      assert b[j] in b;
    }
    assert |b| > 0 ==> ks[|a|] == b[0];
    assert ks[|a|..] == b;
  }

  /** Pages chained by `next` concatenate to the whole range, each leaf once. */
  method ReadRange(view: TreeView, range: Range, start: LeafKey, limit: nat,
    ghost leaves: Leaves) returns (es: seq<Entry>)
    requires view.Valid() && RangeOk(range, view.top) && FixedLength(view.session, view.top)
    requires Honest(view.session, leaves, view.top) && limit > 0 && InRange(start, range)
    modifies view
    ensures view.Valid() && es == Listing(leaves, range, start, Everything)
  {
    es := [];
    var from := Some(start);
    while from.Some?
      invariant view.Valid()
      invariant from.Some? ==> InRange(from.value, range)
      invariant Listing(leaves, range, start, Everything) ==
        es + if from.Some? then Listing(leaves, range, from.value, Everything) else []
      decreases if from.Some? then 1 + range.last - from.value else 0
    {
      ghost var full := Listing(leaves, range, from.value, Everything);
      var page := view.PageRange(range, from, limit, leaves);
      PageAdvances(leaves, range, from.value, limit);
      es := es + page.value.entries;
      from := page.value.next;
    }
  }

  /** A page's entries, then the listing from its `next`; and its `next` is farther along. */
  lemma PageAdvances(leaves: Leaves, range: Range, start: LeafKey, limit: nat)
    requires limit > 0 && InRange(start, range)
    ensures var full, page := Listing(leaves, range, start, Everything), PageOf(leaves, range, start, limit);
      && full == page.entries + (if page.next.Some? then Listing(leaves, range, page.next.value, Everything) else [])
      && (page.next.Some? ==> start < page.next.value && InRange(page.next.value, range))
  {
    var full := Listing(leaves, range, start, Everything);
    if |full| > limit {
      RestOfListing(leaves, range, start, limit);
      var all := LeavesFrom(leaves, range, start, Everything);
      AscendingRises(all);
      ListedAreLeaves(leaves, range, start, Everything);
      assert Keys(full)[0] in Keys(full) && Keys(full)[limit] in Keys(full);
      assert Keys(full)[0] < Keys(full)[limit];
    }
  }
}
