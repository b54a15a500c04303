/** The vouch reads over the tree of a state: a pair's, and the lapses that share one limit. */
module TreeLapses {
  import opened Wrappers
  import opened Sums
  import opened Orders
  import opened Sorting
  import opened Ledger
  import opened Engine
  import opened Coinbase
  import opened Queries
  import opened StateReads
  import opened Invariant
  import opened Tree
  import opened TreeWrites
  import opened TreeViews
  import opened TreeReads
  import opened TreeQueries
  import TreeRuns
  import Tripwires

  // ---------------------------------------------------------------------------
  // A pair's vouch
  // ---------------------------------------------------------------------------

  lemma OnePairBox(ctx: Ctx, boxes: Boxes, voucher: Key, target: Key, id: BoxId)
    requires PairsOnce(boxes) && PairBox(boxes, voucher, target, id)
    ensures PairBoxes(ctx, boxes, voucher, target) == [Live(id, boxes[id])]
  {
    var ls := PairBoxes(ctx, boxes, voucher, target);
    SortedLives(boxes, PairOf(voucher, target), ByRank(ctx));
    forall l ensures l in ls <==> l == Live(id, boxes[id]) {
      if l in ls {
        assert PairBox(boxes, voucher, target, l.id);
      }
    }
    OneMember(ls, Live(id, boxes[id]));
  }

  lemma OneMember(ls: seq<Live>, l: Live)
    requires Distinct(Ids(ls)) && forall m :: m in ls <==> m == l
    ensures ls == [l]
  {
    assert l in ls <==> l == l;
    forall j | 0 <= j < |ls| ensures Ids(ls)[j] == l.id {
      assert ls[j] in ls;
    }
    DistinctCount(Ids(ls));
    assert Members(Ids(ls)) == {l.id} by {
      assert Ids(ls)[0] in Ids(ls);
    }
    assert ls[0] in ls;
  }

  lemma NoPairBox(ctx: Ctx, boxes: Boxes, voucher: Key, target: Key)
    requires forall id :: !PairBox(boxes, voucher, target, id)
    ensures PairBoxes(ctx, boxes, voucher, target) == []
  {
    var ls := PairBoxes(ctx, boxes, voucher, target);
    SortedLives(boxes, PairOf(voucher, target), ByRank(ctx));
    if ls != [] {
      assert ls[0] in ls;
      assert PairBox(boxes, voucher, target, ls[0].id);
    }
  }

  /** The vouch a pair's entry names, or none. */
  method GetVouchBoxes(
    view: TreeView, ctx: Ctx, l: Layout, voucher: Key, target: Key, ghost tree: AuthTree, ghost s: State,
    ghost leaves: Leaves)
    returns (r: Option<seq<Live>>)
    requires view.Valid() && l.fits(VouchPairKey(voucher, target))
    modifies view
    ensures view.Valid()
    ensures Serves(view, ctx, l, tree, s, leaves) && PairsOnce(s.boxes) ==>
      r == Some(PairBoxes(ctx, s.boxes, voucher, target))
  {
    var entry := ReadKey(view, ctx, l, VouchPairKey(voucher, target), tree, s, leaves);
    if Serves(view, ctx, l, tree, s, leaves) && PairsOnce(s.boxes) {
      if id :| PairBox(s.boxes, voucher, target, id) {
        OnePairBox(ctx, s.boxes, voucher, target, id);
        BoxFits(l, tree, s, leaves, id);
      } else {
        NoPairBox(ctx, s.boxes, voucher, target);
      }
    }
    if entry.None? || (entry.value.Some? && !entry.value.value.PairValue?) {
      return None;
    }
    if entry.value.None? {
      return Some([]);
    }
    r := BoxesNamed(view, ctx, l, [entry.value.value.id], IsVouchBox, tree, s, leaves);
  }

  /** A live box's key is one the tree holds, so it fits. */
  lemma BoxFits(l: Layout, tree: AuthTree, s: State, leaves: Leaves, id: BoxId)
    requires Stored(l, tree, leaves) && Represents(tree, s) && id in s.boxes
    ensures l.fits(BoxKey(id))
  {
    assert HoldsAt(tree, s, BoxKey(id));
  }

  // ---------------------------------------------------------------------------
  // A voucher's vouches
  // ---------------------------------------------------------------------------

  function CastBy(voucher: Key): Box -> bool { (b: Box) => b.Vouch? && b.voucherId == voucher }

  ghost function PairListing(l: Layout, leaves: Leaves, voucher: Key): seq<Entry> {
    Listing(leaves, l.rangeOf(PairFamily(voucher)), l.rangeOf(PairFamily(voucher)).first, Everything)
  }

  /** An entry of a pair range: the pair's key, and the id of its one vouch. */
  ghost predicate NamesVouch(s: State, voucher: Key, key: TreeKey, e: Entry) {
    && key.VouchPairKey? && key.voucher == voucher && e.value.PairValue?
    && PairBox(s.boxes, voucher, key.target, e.value.id)
  }

  lemma PairEntry(ctx: Ctx, l: Layout, tree: AuthTree, s: State, leaves: Leaves, voucher: Key,
    i: nat) returns (key: TreeKey)
    requires Lays(ctx, l) && Stored(l, tree, leaves) && Represents(tree, s) && i < |PairListing(l, leaves, voucher)|
    ensures var e := PairListing(l, leaves, voucher)[i];
      NamesVouch(s, voucher, key, e) && l.fits(key) && l.enc(key) == e.key && l.fits(BoxKey(e.value.id))
  {
    var es := PairListing(l, leaves, voucher);
    var range := l.rangeOf(PairFamily(voucher));
    ListedAreLeaves(leaves, range, range.first, Everything);
    assert Keys(es)[i] in Ascending(LeavesFrom(leaves, range, range.first, Everything));
    key := LeafIsEntry(ctx, l, tree, s, leaves, PairFamily(voucher), es[i].key);
    assert HoldsAt(tree, s, key);
    ValueListed(leaves, range, range.first, i);
    BoxFits(l, tree, s, leaves, es[i].value.id);
  }

  function NamedIds(es: seq<Entry>): (ids: seq<BoxId>)
    ensures |ids| == |es|
    ensures forall i | 0 <= i < |es| && es[i].value.PairValue? :: ids[i] == es[i].value.id
  {
    if es == [] then []
    else [if es[0].value.PairValue? then es[0].value.id else Seed(0)] + NamedIds(es[1..])
  }

  lemma TakenNamed(es: seq<Entry>, limit: nat)
    ensures NamedIds(Take(es, limit)) == Take(NamedIds(es), limit)
  {
    if |es| > limit {
      NamedPrefix(es, limit);
    }
  }

  lemma {:induction false} NamedPrefix(es: seq<Entry>, i: nat)
    requires i <= |es|
    ensures NamedIds(es[..i]) == NamedIds(es)[..i]
  {
    if i > 0 {
      NamedPrefix(es[1..], i - 1);
      assert es[..i][1..] == es[1..][..i - 1];
    }
  }

  /** Every vouch of the voucher's is named by an entry. */
  lemma VouchIsListed(ctx: Ctx, l: Layout, tree: AuthTree, s: State, leaves: Leaves, voucher: Key, id: BoxId)
    requires Lays(ctx, l) && Stored(l, tree, leaves) && Represents(tree, s) && PairsOnce(s.boxes)
    requires id in s.boxes && CastBy(voucher)(s.boxes[id])
    ensures id in NamedIds(PairListing(l, leaves, voucher))
  {
    var key := VouchPairKey(voucher, s.boxes[id].targetId);
    assert PairBox(s.boxes, voucher, s.boxes[id].targetId, id);
    assert HoldsAt(tree, s, key) && key in tree && tree[key] == PairValue(id);
    assert LaysKey(l, key) && LaysFamily(l, PairFamily(voucher));
    var range := l.rangeOf(PairFamily(voucher));
    var es := PairListing(l, leaves, voucher);
    var all := LeavesFrom(leaves, range, range.first, Everything);
    Listed(all);
    assert l.enc(key) in all && l.enc(key) in Ascending(all);
    var i :| 0 <= i < |Keys(es)| && Keys(es)[i] == l.enc(key);
    ValueListed(leaves, range, range.first, i);
    assert NamedIds(es)[i] == id;
  }

  lemma PairIds(ctx: Ctx, l: Layout, tree: AuthTree, s: State, leaves: Leaves, voucher: Key)
    requires Lays(ctx, l) && Stored(l, tree, leaves) && Represents(tree, s) && PairsOnce(s.boxes)
    ensures forall id :: id in NamedIds(PairListing(l, leaves, voucher)) <==>
      id in s.boxes && CastBy(voucher)(s.boxes[id])
  {
    var ids := NamedIds(PairListing(l, leaves, voucher));
    forall id ensures id in ids <==> id in s.boxes && CastBy(voucher)(s.boxes[id]) {
      if id in ids {
        var i :| 0 <= i < |ids| && ids[i] == id;
        var key := PairEntry(ctx, l, tree, s, leaves, voucher, i);
      }
      if id in s.boxes && CastBy(voucher)(s.boxes[id]) {
        VouchIsListed(ctx, l, tree, s, leaves, voucher, id);
      }
    }
  }

  /** A voucher's vouches in the tree's order are the voucher's vouches by target. */
  lemma PairsAreQuery(ctx: Ctx, l: Layout, tree: AuthTree, s: State, leaves: Leaves, voucher: Key)
    requires Lays(ctx, l) && Stored(l, tree, leaves) && Represents(tree, s) && PairsOnce(s.boxes)
    ensures var ids := NamedIds(PairListing(l, leaves, voucher));
      && (forall id | id in ids :: id in s.boxes)
      && LivesAt(s.boxes, ids) == Sorted(LivesWhere(s.boxes, CastBy(voucher)), ByPair())
  {
    var ids := NamedIds(PairListing(l, leaves, voucher));
    PairIds(ctx, l, tree, s, leaves, voucher);
    var ls := LivesAt(s.boxes, ids);
    forall i, j | 0 <= i < j < |ls| ensures Precedes(ByPair(), ls[i], ls[j]) && ls[i] != ls[j] {
      PairsInOrder(ctx, l, tree, s, leaves, voucher, i, j);
    }
    LivesAreAll(s.boxes, ids, CastBy(voucher));
    PairsTellApart(s.boxes, CastBy(voucher));
    SortedIsUnique(LivesWhere(s.boxes, CastBy(voucher)), ByPair(), ls);
  }

  lemma PairsInOrder(
    ctx: Ctx, l: Layout, tree: AuthTree, s: State, leaves: Leaves, voucher: Key, i: nat, j: nat)
    requires Lays(ctx, l) && Stored(l, tree, leaves) && Represents(tree, s) && i < j < |PairListing(l, leaves, voucher)|
    ensures var ids := NamedIds(PairListing(l, leaves, voucher));
      && ids[i] in s.boxes && ids[j] in s.boxes && ids[i] != ids[j]
      && Precedes(ByPair(), Live(ids[i], s.boxes[ids[i]]), Live(ids[j], s.boxes[ids[j]]))
  {
    var es := PairListing(l, leaves, voucher);
    var range := l.rangeOf(PairFamily(voucher));
    var a := PairEntry(ctx, l, tree, s, leaves, voucher, i);
    var b := PairEntry(ctx, l, tree, s, leaves, voucher, j);
    KeysRise(leaves, range, range.first, i, j);
    assert LaysPair(ctx, l, a, b) && InFamily(PairFamily(voucher), a) && InFamily(PairFamily(voucher), b);
    PairOrder(ctx, s, a, b, NamedIds(es)[i], NamedIds(es)[j]);
  }

  lemma KeysRise(leaves: Leaves, range: Range, start: LeafKey, i: nat, j: nat)
    requires i < j < |Listing(leaves, range, start, Everything)|
    ensures Listing(leaves, range, start, Everything)[i].key < Listing(leaves, range, start, Everything)[j].key
  {
    Listed(LeavesFrom(leaves, range, start, Everything));
    var es := Listing(leaves, range, start, Everything);
    assert Keys(es)[i] < Keys(es)[j];
  }

  lemma PairOrder(ctx: Ctx, s: State, a: TreeKey, b: TreeKey, i: BoxId, j: BoxId)
    requires a.VouchPairKey? && b.VouchPairKey? && a != b && a.voucher == b.voucher
    requires PairBox(s.boxes, a.voucher, a.target, i) && PairBox(s.boxes, b.voucher, b.target, j)
    requires PlaceOf(ctx, a).0 < PlaceOf(ctx, b).0 || (PlaceOf(ctx, a).0 == PlaceOf(ctx, b).0
      && PlaceOf(ctx, a).1 <= PlaceOf(ctx, b).1)
    ensures i != j && Precedes(ByPair(), Live(i, s.boxes[i]), Live(j, s.boxes[j]))
  {
    assert ByPair()(Live(i, s.boxes[i])) == (a.voucher, a.target);
    assert ByPair()(Live(j, s.boxes[j])) == (b.voucher, b.target);
  }

  lemma PairsTellApart(boxes: Boxes, p: Box -> bool)
    requires PairsOnce(boxes) && forall b :: p(b) ==> b.Vouch?
    ensures TellsApart(LivesWhere(boxes, p), ByPair())
  {
    forall a, b | a in LivesWhere(boxes, p) && b in LivesWhere(boxes, p) && ByPair()(a) == ByPair()(b) ensures a == b {
      assert p(a.box) && p(b.box);
      assert ByPair()(a) == (a.box.voucherId, a.box.targetId) && ByPair()(b) == (b.box.voucherId, b.box.targetId);
      assert PairBox(boxes, a.box.voucherId, a.box.targetId, a.id)
          && PairBox(boxes, a.box.voucherId, a.box.targetId, b.id);
    }
  }

  // ---------------------------------------------------------------------------
  // The lapsed
  // ---------------------------------------------------------------------------

  ghost function LapsedListing(l: Layout, leaves: Leaves): seq<Entry> {
    Listing(leaves, l.rangeOf(LapsedFamily), l.rangeOf(LapsedFamily).first, Everything)
  }

  function Identities(l: Layout, es: seq<Entry>): (ks: seq<Key>)
    ensures |ks| == |es|
    ensures forall i | 0 <= i < |es| :: ks[i] == l.identityOf(es[i].key)
  {
    if es == [] then [] else [l.identityOf(es[0].key)] + Identities(l, es[1..])
  }

  lemma LapsedEntry(ctx: Ctx, l: Layout, tree: AuthTree, s: State, leaves: Leaves, i: nat)
    requires Lays(ctx, l) && Stored(l, tree, leaves) && Represents(tree, s) && i < |LapsedListing(l, leaves)|
    ensures var e := LapsedListing(l, leaves)[i];
      var k := l.identityOf(e.key);
      HoldsLapsed(s, k) && l.fits(LapsedKey(k)) && l.enc(LapsedKey(k)) == e.key
  {
    var es := LapsedListing(l, leaves);
    var range := l.rangeOf(LapsedFamily);
    ListedAreLeaves(leaves, range, range.first, Everything);
    assert Keys(es)[i] in Ascending(LeavesFrom(leaves, range, range.first, Everything));
    var key := LeafIsEntry(ctx, l, tree, s, leaves, LapsedFamily, es[i].key);
    assert HoldsAt(tree, s, key) && LaysKey(l, key);
  }

  lemma LapsedIsListed(ctx: Ctx, l: Layout, tree: AuthTree, s: State, leaves: Leaves, k: Key)
    requires Lays(ctx, l) && Stored(l, tree, leaves) && Represents(tree, s) && HoldsLapsed(s, k)
    ensures k in Identities(l, LapsedListing(l, leaves))
  {
    var key := LapsedKey(k);
    assert HoldsAt(tree, s, key) && LaysKey(l, key) && LaysFamily(l, LapsedFamily);
    var range := l.rangeOf(LapsedFamily);
    var es := LapsedListing(l, leaves);
    var all := LeavesFrom(leaves, range, range.first, Everything);
    Listed(all);
    assert l.enc(key) in all && l.enc(key) in Ascending(all);
    var i :| 0 <= i < |Keys(es)| && Keys(es)[i] == l.enc(key);
    assert Identities(l, es)[i] == k;
  }

  lemma LapsedInOrder(ctx: Ctx, l: Layout, tree: AuthTree, s: State, leaves: Leaves, i: nat, j: nat)
    requires Lays(ctx, l) && Stored(l, tree, leaves) && Represents(tree, s) && i < j < |LapsedListing(l, leaves)|
    ensures Identities(l, LapsedListing(l, leaves))[i] < Identities(l, LapsedListing(l, leaves))[j]
  {
    var es := LapsedListing(l, leaves);
    LapsedEntry(ctx, l, tree, s, leaves, i);
    LapsedEntry(ctx, l, tree, s, leaves, j);
    KeysRise(leaves, l.rangeOf(LapsedFamily), l.rangeOf(LapsedFamily).first, i, j);
    LapsedApart(ctx, l, l.identityOf(es[i].key), l.identityOf(es[j].key));
  }

  lemma LapsedApart(ctx: Ctx, l: Layout, j: Key, k: Key)
    requires Lays(ctx, l) && l.fits(LapsedKey(j)) && l.fits(LapsedKey(k)) && l.enc(LapsedKey(j)) < l.enc(LapsedKey(k))
    ensures j < k
  {
    assert LaysPair(ctx, l, LapsedKey(j), LapsedKey(k));
    assert InFamily(LapsedFamily, LapsedKey(j)) && InFamily(LapsedFamily, LapsedKey(k));
  }

  /** The lapsed identities, ascending, each once. */
  lemma LapsedRise(ctx: Ctx, l: Layout, tree: AuthTree, s: State, leaves: Leaves)
    requires Lays(ctx, l) && Stored(l, tree, leaves) && Represents(tree, s)
    ensures var ks := Identities(l, LapsedListing(l, leaves)); Rising(ks) && forall k :: k in ks <==> HoldsLapsed(s, k)
  {
    var es := LapsedListing(l, leaves);
    var ks := Identities(l, es);
    forall i, j | 0 <= i < j < |ks| ensures ks[i] < ks[j] {
      LapsedInOrder(ctx, l, tree, s, leaves, i, j);
    }
    forall k ensures k in ks <==> HoldsLapsed(s, k) {
      if k in ks {
        var i :| 0 <= i < |ks| && ks[i] == k;
        LapsedEntry(ctx, l, tree, s, leaves, i);
      }
      if HoldsLapsed(s, k) {
        LapsedIsListed(ctx, l, tree, s, leaves, k);
      }
    }
  }

  // ---------------------------------------------------------------------------
  // The lapsed identities' vouches, one range after another
  // ---------------------------------------------------------------------------

  ghost function CastsListed(boxes: Boxes, voucher: Key): seq<Live> {
    Sorted(LivesWhere(boxes, CastBy(voucher)), ByPair())
  }

  ghost function RangesJoined(boxes: Boxes, vouchers: seq<Key>): seq<Live> {
    if vouchers == [] then [] else CastsListed(boxes, vouchers[0]) + RangesJoined(boxes, vouchers[1..])
  }

  lemma {:induction false} RangesSnoc(boxes: Boxes, vouchers: seq<Key>, voucher: Key)
    ensures RangesJoined(boxes, vouchers + [voucher]) == RangesJoined(boxes, vouchers) + CastsListed(boxes, voucher)
  {
    if vouchers == [] {
      assert vouchers + [voucher] == [voucher];
      assert RangesJoined(boxes, [voucher][1..]) == [];
    } else {
      assert (vouchers + [voucher])[1..] == vouchers[1..] + [voucher];
      RangesSnoc(boxes, vouchers[1..], voucher);
    }
  }

  lemma CastsHold(boxes: Boxes, voucher: Key)
    ensures forall x :: x in CastsListed(boxes, voucher) <==>
      x.id in boxes && boxes[x.id] == x.box && CastBy(voucher)(x.box)
  {
    SortedLives(boxes, CastBy(voucher), ByPair());
  }

  lemma {:induction false} RangesHold(boxes: Boxes, vouchers: seq<Key>)
    ensures forall x :: x in RangesJoined(boxes, vouchers) <==>
      x.id in boxes && boxes[x.id] == x.box && x.box.Vouch? && x.box.voucherId in vouchers
  {
    if vouchers != [] {
      RangesHold(boxes, vouchers[1..]);
      CastsHold(boxes, vouchers[0]);
      assert vouchers == [vouchers[0]] + vouchers[1..];
    }
  }

  /** Ranges of rising vouchers, joined, are in the order of the pairs. */
  lemma {:induction false} RangesInOrder(boxes: Boxes, vouchers: seq<Key>)
    requires Rising(vouchers)
    ensures InKeyOrder(RangesJoined(boxes, vouchers), ByPair()) && Distinct(RangesJoined(boxes, vouchers))
  {
    if vouchers != [] {
      var a, b := CastsListed(boxes, vouchers[0]), RangesJoined(boxes, vouchers[1..]);
      RangesInOrder(boxes, vouchers[1..]);
      SortedInOrder(LivesWhere(boxes, CastBy(vouchers[0])), ByPair());
      SortedLists(LivesWhere(boxes, CastBy(vouchers[0])), ByPair());
      CastsHold(boxes, vouchers[0]);
      RangesHold(boxes, vouchers[1..]);
      forall x, y | x in a && y in b ensures Precedes(ByPair(), x, y) && x != y {
        var k :| 0 <= k < |vouchers[1..]| && vouchers[1..][k] == y.box.voucherId;
        assert vouchers[0] < vouchers[k + 1];
        assert ByPair()(x).0 == vouchers[0] && ByPair()(y).0 == y.box.voucherId;
      }
      OrderedJoin(a, b);
    }
  }

  lemma OrderedJoin(a: seq<Live>, b: seq<Live>)
    requires InKeyOrder(a, ByPair()) && Distinct(a) && InKeyOrder(b, ByPair()) && Distinct(b)
    requires forall x, y | x in a && y in b :: Precedes(ByPair(), x, y) && x != y
    ensures InKeyOrder(a + b, ByPair()) && Distinct(a + b)
  {
    var c := a + b;
    forall i, j | 0 <= i < j < |c| ensures Precedes(ByPair(), c[i], c[j]) && c[i] != c[j] {
      if i < |a| && j >= |a| {
        assert c[i] in a && c[j] in b;
      }
    }
  }

  /** The lapsed identities' ranges, joined, are the state's lapsed vouches, in the order of the pairs. */
  lemma JoinedAreLapsed(s: State, vouchers: seq<Key>)
    requires Rising(vouchers) && (forall k :: k in vouchers <==> HoldsLapsed(s, k)) && PairsOnce(s.boxes)
    ensures RangesJoined(s.boxes, vouchers) == Sorted(LivesWhere(s.boxes, LapsedIn(s.records)), ByPair())
  {
    var ls, p := RangesJoined(s.boxes, vouchers), LapsedIn(s.records);
    RangesInOrder(s.boxes, vouchers);
    RangesHold(s.boxes, vouchers);
    forall x ensures x in Members(ls) <==> x in LivesWhere(s.boxes, p) {
      if x.id in s.boxes && s.boxes[x.id] == x.box && x.box.Vouch? {
        VoucherCasts(s, x.id);
        assert x == Live(x.id, s.boxes[x.id]);
      }
    }
    PairsTellApart(s.boxes, p);
    SortedIsUnique(LivesWhere(s.boxes, p), ByPair(), ls);
  }

  lemma VoucherCasts(s: State, id: BoxId)
    requires id in s.boxes && s.boxes[id].Vouch?
    ensures HoldsLapsed(s, s.boxes[id].voucherId) <==> LapsedIn(s.records)(s.boxes[id])
  {
    MapSumBounds(s.boxes, CastWeight(s.boxes[id].voucherId), id);
  }

  /** A lapsed identity's range is not empty. */
  lemma LapsedHasCasts(s: State, voucher: Key)
    requires HoldsLapsed(s, voucher)
    ensures CastsListed(s.boxes, voucher) != []
  {
    if forall id | id in s.boxes :: !CastBy(voucher)(s.boxes[id]) {
      MapSumNothing(s.boxes, CastWeight(voucher));
    } else {
      var id :| id in s.boxes && CastBy(voucher)(s.boxes[id]);
      CastsHold(s.boxes, voucher);
      assert Live(id, s.boxes[id]) in CastsListed(s.boxes, voucher);
    }
  }

  // ---------------------------------------------------------------------------
  // getLapsedVouches
  // ---------------------------------------------------------------------------

  /** A voucher's first vouches by target. */
  method CastsOver(
    view: TreeView, ctx: Ctx, l: Layout, voucher: Key, limit: nat, ghost tree: AuthTree, ghost s: State,
    ghost leaves: Leaves)
    returns (r: Option<seq<Live>>)
    requires view.Valid() && limit > 0 && FixedLength(view.session, view.top)
      && RangeOk(l.rangeOf(PairFamily(voucher)), view.top)
    modifies view
    ensures view.Valid()
    ensures Serves(view, ctx, l, tree, s, leaves) && PairsOnce(s.boxes) ==>
      r == Some(Take(CastsListed(s.boxes, voucher), limit))
  {
    var range := l.rangeOf(PairFamily(voucher));
    var walked := view.Walk(range, limit, Everything, range.first, leaves);
    if Serves(view, ctx, l, tree, s, leaves) && PairsOnce(s.boxes) {
      CastsWalked(ctx, l, tree, s, leaves, voucher, limit);
    }
    if walked.None? {
      return None;
    }
    var es := walked.value.0;
    if exists i :: 0 <= i < |es| && !es[i].value.PairValue? {
      return None;
    }
    r := BoxesNamed(view, ctx, l, NamedIds(es), IsVouchBox, tree, s, leaves);
  }

  lemma CastsWalked(ctx: Ctx, l: Layout, tree: AuthTree, s: State, leaves: Leaves, voucher: Key, limit: nat)
    requires Lays(ctx, l) && Stored(l, tree, leaves) && Represents(tree, s) && PairsOnce(s.boxes)
    ensures StopsOnce(l.rangeOf(PairFamily(voucher)), Everything)
    ensures var es := Take(PairListing(l, leaves, voucher), limit);
      && (forall i | 0 <= i < |es| :: es[i].value.PairValue?)
      && AllNamed(l, s, NamedIds(es), IsVouchBox)
      && LivesAt(s.boxes, NamedIds(es)) == Take(CastsListed(s.boxes, voucher), limit)
  {
    var full := PairListing(l, leaves, voucher);
    var es := Take(full, limit);
    forall i | 0 <= i < |full| ensures full[i].value.PairValue? {
      var key := PairEntry(ctx, l, tree, s, leaves, voucher, i);
    }
    PairsAreQuery(ctx, l, tree, s, leaves, voucher);
    TakenNamed(full, limit);
    TakenLivesAt(s.boxes, NamedIds(full), limit);
    PairIds(ctx, l, tree, s, leaves, voucher);
    forall id | id in NamedIds(es) ensures l.fits(BoxKey(id)) && id in s.boxes && IsVouchBox(s.boxes[id]) {
      assert id in NamedIds(full);
      BoxFits(l, tree, s, leaves, id);
    }
  }

  lemma TakeJoined(a: seq<Live>, b: seq<Live>, limit: nat)
    requires |a| < limit
    ensures Take(a, limit) == a && Take(a + b, limit) == a + Take(b, limit - |a|)
  {
  }

  lemma TakeReached(a: seq<Live>, b: seq<Live>, limit: nat)
    requires |a| >= limit
    ensures Take(a + b, limit) == Take(a, limit)
  {
  }

  /** What the lapse read holds after the ranges of the first vouchers, one limit shared among them. */
  ghost predicate LapsesSoFar(boxes: Boxes, vouchers: seq<Key>, i: nat, limit: nat, vouches: seq<Live>)
    requires i <= |vouchers|
  {
    vouches == RangesJoined(boxes, vouchers[..i]) && |vouches| < limit
  }

  lemma OneRangeMore(boxes: Boxes, vouchers: seq<Key>, i: nat, limit: nat, vouches: seq<Live>)
    requires i < |vouchers| && LapsesSoFar(boxes, vouchers, i, limit, vouches)
    ensures var more := vouches + Take(CastsListed(boxes, vouchers[i]), limit - |vouches|);
      if |more| >= limit then more == Take(RangesJoined(boxes, vouchers), limit)
          else LapsesSoFar(boxes, vouchers, i + 1, limit, more)
  {
    var a, b := RangesJoined(boxes, vouchers[..i]), CastsListed(boxes, vouchers[i]);
    assert vouchers[..i + 1] == vouchers[..i] + [vouchers[i]];
    RangesSnoc(boxes, vouchers[..i], vouchers[i]);
    TakeJoined(a, b, limit);
    if |Take(a + b, limit)| >= limit {
      RangesSplit(boxes, vouchers, i + 1);
      TakeReached(a + b, RangesJoined(boxes, vouchers[i + 1..]), limit);
    }
  }

  lemma RangesSplit(boxes: Boxes, vouchers: seq<Key>, i: nat)
    requires i <= |vouchers|
    ensures RangesJoined(boxes, vouchers) == RangesJoined(boxes, vouchers[..i]) + RangesJoined(boxes, vouchers[i..])
  {
    assert vouchers == vouchers[..i] + vouchers[i..];
    RangesConcat(boxes, vouchers[..i], vouchers[i..]);
  }

  lemma {:induction false} RangesConcat(boxes: Boxes, a: seq<Key>, b: seq<Key>)
    ensures RangesJoined(boxes, a + b) == RangesJoined(boxes, a) + RangesJoined(boxes, b)
  {
    if a == [] {
      assert a + b == b;
    } else {
      assert (a + b)[1..] == a[1..] + b;
      RangesConcat(boxes, a[1..], b);
    }
  }

  /** The lapsed vouches of one voucher after another, at most `limit` over all of them. */
  method GetLapsedVouches(
    view: TreeView, ctx: Ctx, l: Layout, limit: nat, ghost tree: AuthTree, ghost s: State, ghost leaves: Leaves)
    returns (r: Option<seq<Live>>)
    requires view.Valid() && FixedLength(view.session, view.top) && forall f :: RangeOk(l.rangeOf(f), view.top)
    modifies view
    ensures view.Valid()
    ensures Serves(view, ctx, l, tree, s, leaves) && PairsOnce(s.boxes) ==>
      r == Some(Take(Sorted(LivesWhere(s.boxes, LapsedIn(s.records)), ByPair()), limit))
  {
    if limit == 0 {
      return Some([]);
    }
    var range := l.rangeOf(LapsedFamily);
    ghost var served := Serves(view, ctx, l, tree, s, leaves) && PairsOnce(s.boxes);
    var walked := view.Walk(range, view.top, Everything, range.first, leaves);
    if walked.None? {
      return None;
    }
    var vouchers := Identities(l, walked.value.0);
    if served {
      AllLapsed(ctx, l, tree, s, leaves);
    }
    r := CastsOverAll(view, ctx, l, vouchers, limit, tree, s, leaves);
  }

  lemma AllLapsed(ctx: Ctx, l: Layout, tree: AuthTree, s: State, leaves: Leaves)
    requires Lays(ctx, l) && Stored(l, tree, leaves) && Represents(tree, s) && PairsOnce(s.boxes)
    ensures StopsOnce(l.rangeOf(LapsedFamily), Everything)
    ensures Take(LapsedListing(l, leaves), l.top) == LapsedListing(l, leaves)
    ensures var ks := Identities(l, LapsedListing(l, leaves));
      (forall k | k in ks :: HoldsLapsed(s, k))
      && RangesJoined(s.boxes, ks) == Sorted(LivesWhere(s.boxes, LapsedIn(s.records)), ByPair())
  {
    LapsedRise(ctx, l, tree, s, leaves);
    JoinedAreLapsed(s, Identities(l, LapsedListing(l, leaves)));
    var range := l.rangeOf(LapsedFamily);
    Listed(LeavesFrom(leaves, range, range.first, Everything));
    assert LaysFamily(l, LapsedFamily);
    FewerThanTop(Keys(LapsedListing(l, leaves)), l.top);
  }

  ghost predicate LapsesServed(
    view: TreeView, ctx: Ctx, l: Layout, vouchers: seq<Key>, tree: AuthTree, s: State, leaves: Leaves)
  {
    && Serves(view, ctx, l, tree, s, leaves) && PairsOnce(s.boxes)
    && forall k | k in vouchers :: HoldsLapsed(s, k)
  }

  method CastsOverAll(
    view: TreeView, ctx: Ctx, l: Layout, vouchers: seq<Key>, limit: nat, ghost tree: AuthTree, ghost s: State,
    ghost leaves: Leaves)
    returns (r: Option<seq<Live>>)
    requires view.Valid() && limit > 0 && FixedLength(view.session, view.top)
      && forall f :: RangeOk(l.rangeOf(f), view.top)
    modifies view
    ensures view.Valid()
    ensures LapsesServed(view, ctx, l, vouchers, tree, s, leaves) ==>
      r == Some(Take(RangesJoined(s.boxes, vouchers), limit))
  {
    ghost var served := LapsesServed(view, ctx, l, vouchers, tree, s, leaves);
    var vouches: seq<Live> := [];
    for i := 0 to |vouchers|
      invariant view.Valid() && |vouches| < limit
      invariant served ==> LapsesSoFar(s.boxes, vouchers, i, limit, vouches)
    {
      var casts := CastsOver(view, ctx, l, vouchers[i], limit - |vouches|, tree, s, leaves);
      if served {
        OneRangeMore(s.boxes, vouchers, i, limit, vouches);
        assert vouchers[i] in vouchers;
        LapsedHasCasts(s, vouchers[i]);
      }
      if casts.None? || casts.value == [] {
        return None;
      }
      vouches := vouches + casts.value;
      if |vouches| >= limit {
        return Some(vouches);
      }
    }
    assert vouchers[..|vouchers|] == vouchers;
    r := Some(vouches);
  }

  // ---------------------------------------------------------------------------
  // At every reachable state
  // ---------------------------------------------------------------------------

  /** What the reads rest on holds of every reachable state: one vouch a pair, bonds granted, no third karma box. */
  lemma ReachableIsReadable(ctx: Ctx, s: State, height: int, applied: set<TxCore>)
    requires Inv(ctx, s, height, applied)
    ensures PairsOnce(s.boxes) && BondsGranted(s)
    ensures forall owner :: |KarmaBoxes(ctx, s.boxes, owner)| < 3
  {
    TreeRuns.PairsAreOnce(s.boxes);
    forall id | id in s.boxes && s.boxes[id].Bond?
      ensures s.boxes[id].inviteePublicKey in s.records && s.records[s.boxes[id].inviteePublicKey].invitedAtBlock >= 1
    {
      assert Registered(s.boxes[id], s.records);
    }
    forall owner ensures |KarmaBoxes(ctx, s.boxes, owner)| < 3 {
      Tripwires.NoThirdKarmaBox(ctx, s.boxes, owner);
    }
  }
}
