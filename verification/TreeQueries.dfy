/** Each list read of the view over the tree of a state, against the state's query. */
module TreeQueries {
  import opened Wrappers
  import opened Sums
  import opened Orders
  import opened Sorting
  import opened Ledger
  import opened Engine
  import opened Coinbase
  import opened Queries
  import opened StateReads
  import opened Invariant
  import opened Tree
  import opened TreeWrites
  import opened TreeViews
  import opened TreeReads

  // ---------------------------------------------------------------------------
  // An owner's boxes
  // ---------------------------------------------------------------------------

  lemma OwnedReadsAs(ctx: Ctx, tree: AuthTree, s: State, f: Family, p: Box -> bool)
    requires Represents(tree, s)
    requires (f.KarmaFamily? && p == KarmaOf(f.owner)) || (f.AccrualFamily? && p == AccrualOf(f.author))
      || (f.EscrowFamily? && p == EscrowOf(f.owner))
    ensures ReadsAs(ctx, tree, s, f, AnyHeight, p, ByRank(ctx))
  {
    forall id ensures Takes(f, tree, s, AnyHeight, id) <==> id in s.boxes && p(s.boxes[id]) {
      if id in s.boxes {
        assert HoldsAt(tree, s, FamilyKey(f, s, id));
      }
    }
  }

  ghost predicate OwnedReadable(
    view: TreeView, ctx: Ctx, l: Layout, f: Family, p: Box -> bool, expected: Box -> bool, tree: AuthTree, s: State,
    leaves: Leaves)
  {
    && Serves(view, ctx, l, tree, s, leaves)
    && ReadsAs(ctx, tree, s, f, AnyHeight, p, ByRank(ctx))
    && forall b | p(b) :: expected(b)
  }

  /** All of a family's boxes, in id order. */
  method AllOf(
    view: TreeView, ctx: Ctx, l: Layout, f: Family, ghost p: Box -> bool, expected: Box -> bool,
    ghost tree: AuthTree, ghost s: State, ghost leaves: Leaves)
    returns (r: Option<seq<Live>>)
    requires view.Valid() && NamesBoxes(f) && FixedLength(view.session, view.top) && RangeOk(l.rangeOf(f), view.top)
    modifies view
    ensures view.Valid()
    ensures r.Some? && LaysFamily(l, f) && !f.EscrowDueFamily? && !f.BondDueFamily? ==> IdsApart(r.value)
    ensures OwnedReadable(view, ctx, l, f, p, expected, tree, s, leaves) ==>
      r == Some(Sorted(LivesWhere(s.boxes, p), ByRank(ctx)))
  {
    r := IndexedBoxes(view, ctx, l, f, AnyHeight, view.top, expected, tree, s, leaves);
    if OwnedReadable(view, ctx, l, f, p, expected, tree, s, leaves) {
      AnyStopsOnce(l, l.rangeOf(f));
      WholeListing(ctx, l, leaves, f, AnyHeight);
      TakenIds(l, FullListing(l, leaves, f, AnyHeight), view.top);
      ByRankRanks(ctx);
      ListingIsQuery(ctx, l, tree, s, leaves, f, AnyHeight, p, ByRank(ctx));
    }
  }

  predicate IsKarmaBox(b: Box) { b.Karma? }
  predicate IsAccrualBox(b: Box) { b.LikeAccrual? }
  predicate IsEscrowBox(b: Box) { b.VouchEscrow? }
  predicate IsVouchBox(b: Box) { b.Vouch? }
  predicate IsBondBox(b: Box) { b.Bond? }

  method GetLikeAccrualBoxes(
    view: TreeView, ctx: Ctx, l: Layout, author: Key, ghost tree: AuthTree, ghost s: State, ghost leaves: Leaves)
    returns (r: Option<seq<Live>>)
    requires view.Valid() && FixedLength(view.session, view.top) && RangeOk(l.rangeOf(AccrualFamily(author)), view.top)
    modifies view
    ensures view.Valid()
    ensures Serves(view, ctx, l, tree, s, leaves) ==> r == Some(AccrualBoxes(ctx, s.boxes, author))
  {
    r := AllOf(view, ctx, l, AccrualFamily(author), AccrualOf(author), IsAccrualBox, tree, s, leaves);
    if Serves(view, ctx, l, tree, s, leaves) {
      OwnedReadsAs(ctx, tree, s, AccrualFamily(author), AccrualOf(author));
    }
  }

  method GetVouchEscrowsFor(
    view: TreeView, ctx: Ctx, l: Layout, voucher: Key, ghost tree: AuthTree, ghost s: State, ghost leaves: Leaves)
    returns (r: Option<seq<Live>>)
    requires view.Valid() && FixedLength(view.session, view.top) && RangeOk(l.rangeOf(EscrowFamily(voucher)), view.top)
    modifies view
    ensures view.Valid()
    ensures Serves(view, ctx, l, tree, s, leaves) ==> r == Some(EscrowBoxes(ctx, s.boxes, voucher))
  {
    r := AllOf(view, ctx, l, EscrowFamily(voucher), EscrowOf(voucher), IsEscrowBox, tree, s, leaves);
    if Serves(view, ctx, l, tree, s, leaves) {
      OwnedReadsAs(ctx, tree, s, EscrowFamily(voucher), EscrowOf(voucher));
    }
  }

  /** The first boxes of a family, in id order. */
  method FirstOf(
    view: TreeView, ctx: Ctx, l: Layout, f: Family, limit: nat, ghost p: Box -> bool, expected: Box -> bool,
    ghost tree: AuthTree, ghost s: State, ghost leaves: Leaves)
    returns (r: Option<seq<Live>>)
    requires view.Valid() && NamesBoxes(f) && limit > 0 && FixedLength(view.session, view.top)
      && RangeOk(l.rangeOf(f), view.top)
    modifies view
    ensures view.Valid()
    ensures r.Some? && LaysFamily(l, f) && !f.EscrowDueFamily? && !f.BondDueFamily? ==> IdsApart(r.value)
    ensures OwnedReadable(view, ctx, l, f, p, expected, tree, s, leaves) ==>
      r == Some(Take(Sorted(LivesWhere(s.boxes, p), ByRank(ctx)), limit))
  {
    r := IndexedBoxes(view, ctx, l, f, AnyHeight, limit, expected, tree, s, leaves);
    if OwnedReadable(view, ctx, l, f, p, expected, tree, s, leaves) {
      AnyStopsOnce(l, l.rangeOf(f));
      ByRankRanks(ctx);
      ListingIsQuery(ctx, l, tree, s, leaves, f, AnyHeight, p, ByRank(ctx));
      TakenLivesAt(s.boxes, IdsOf(l, FullListing(l, leaves, f, AnyHeight)), limit);
    }
  }

  /** The owner's karma boxes, highest value first; none where there is a third. */
  method GetKarmaBoxes(
    view: TreeView, ctx: Ctx, l: Layout, owner: Key, ghost tree: AuthTree, ghost s: State, ghost leaves: Leaves)
    returns (r: Option<seq<Live>>)
    requires view.Valid() && FixedLength(view.session, view.top) && RangeOk(l.rangeOf(KarmaFamily(owner)), view.top)
    requires RanksApart(ctx) && LaysFamily(l, KarmaFamily(owner))
    modifies view
    ensures view.Valid()
    ensures Serves(view, ctx, l, tree, s, leaves) ==>
      r == if |KarmaBoxes(ctx, s.boxes, owner)| < 3 then Some(KarmaBoxes(ctx, s.boxes, owner)) else None
  {
    var found := FirstOf(view, ctx, l, KarmaFamily(owner), 3, KarmaOf(owner), IsKarmaBox, tree, s, leaves);
    if Serves(view, ctx, l, tree, s, leaves) {
      OwnedReadsAs(ctx, tree, s, KarmaFamily(owner), KarmaOf(owner));
      SameLength(ctx, s.boxes, owner);
    }
    if found.None? || |found.value| >= 3 {
      return None;
    }
    var sorted := SortedByValue(ctx, found.value, s.boxes, owner);
    r := Some(sorted);
  }

  lemma SameLength(ctx: Ctx, boxes: Boxes, owner: Key)
    ensures |Sorted(LivesWhere(boxes, KarmaOf(owner)), ByRank(ctx))| == |KarmaBoxes(ctx, boxes, owner)|
  {
    var all := LivesWhere(boxes, KarmaOf(owner));
    SortedLists(all, ByRank(ctx));
    SortedLists(all, ByValue(ctx));
    DistinctCount(Sorted(all, ByRank(ctx)));
    DistinctCount(KarmaBoxes(ctx, boxes, owner));
  }

  lemma {:induction false} DistinctCount<T(!new)>(xs: seq<T>)
    requires Distinct(xs)
    ensures |Members(xs)| == |xs|
  {
    if xs != [] {
      DistinctTail(xs);
      DistinctCount(xs[1..]);
      assert Members(xs) == {xs[0]} + Members(xs[1..]);
    }
  }

  method SortedByValue(ctx: Ctx, found: seq<Live>, ghost boxes: Boxes, ghost owner: Key) returns (sorted: seq<Live>)
    requires RanksApart(ctx) && IdsApart(found)
    ensures found == Sorted(LivesWhere(boxes, KarmaOf(owner)), ByRank(ctx)) ==> sorted == KarmaBoxes(ctx, boxes, owner)
  {
    ValuesApart(ctx, found);
    SortedLists(LivesWhere(boxes, KarmaOf(owner)), ByRank(ctx));
    sorted := SortByKey(found, ByValue(ctx));
  }

  lemma ValuesApart(ctx: Ctx, ls: seq<Live>)
    requires RanksApart(ctx) && IdsApart(ls)
    ensures Distinct(ls) && TellsApart(Members(ls), ByValue(ctx))
  {
    ByRankRanks(ctx);
    forall a, b | a in Members(ls) && b in Members(ls) && ByValue(ctx)(a) == ByValue(ctx)(b) ensures a == b {
      var i :| 0 <= i < |ls| && ls[i] == a;
      var j :| 0 <= j < |ls| && ls[j] == b;
      assert ls[i].id == ls[j].id;
    }
  }

  // ---------------------------------------------------------------------------
  // The protocol boxes
  // ---------------------------------------------------------------------------

  ghost predicate KindIs(kind: nat, p: Box -> bool) {
    forall b :: p(b) <==> Protocol(b) && KindNumber(b) == kind
  }

  lemma TypeReadsAs(ctx: Ctx, tree: AuthTree, s: State, kind: nat, p: Box -> bool)
    requires Represents(tree, s) && KindIs(kind, p)
    ensures ReadsAs(ctx, tree, s, TypeFamily(kind), AnyHeight, p, ByRank(ctx))
  {
    forall id ensures Takes(TypeFamily(kind), tree, s, AnyHeight, id) <==> id in s.boxes && p(s.boxes[id]) {
      if id in s.boxes {
        assert HoldsAt(tree, s, TypeKey(kind, id));
      }
    }
  }

  /** The first box of a protocol type: emission 0, treasury 1, karma pool 2, backer pool 3. */
  method FirstOfType(
    view: TreeView, ctx: Ctx, l: Layout, kind: nat, p: Box -> bool, ghost tree: AuthTree, ghost s: State,
    ghost leaves: Leaves)
    returns (r: Option<Option<Live>>)
    requires view.Valid() && FixedLength(view.session, view.top) && RangeOk(l.rangeOf(TypeFamily(kind)), view.top)
    modifies view
    ensures view.Valid()
    ensures Serves(view, ctx, l, tree, s, leaves) && KindIs(kind, p) ==> r == Some(FirstLive(ctx, s.boxes, p))
  {
    var found := FirstOf(view, ctx, l, TypeFamily(kind), 1, p, p, tree, s, leaves);
    if Serves(view, ctx, l, tree, s, leaves) && KindIs(kind, p) {
      TypeReadsAs(ctx, tree, s, kind, p);
    }
    r := if found.None? then None else if found.value == [] then Some(None) else Some(Some(found.value[0]));
  }

  // ---------------------------------------------------------------------------
  // The due queues
  // ---------------------------------------------------------------------------

  function UpTo(height: int): int -> bool { (h: int) => h <= height }

  lemma EscrowDueReadsAs(ctx: Ctx, tree: AuthTree, s: State, height: int)
    requires Represents(tree, s)
    ensures ReadsAs(ctx, tree, s, EscrowDueFamily, UpTo(height), ReleasableBy(height), ByRelease(ctx))
  {
    forall id
      ensures Takes(EscrowDueFamily, tree, s, UpTo(height), id) <==> id in s.boxes && ReleasableBy(height)(s.boxes[id])
    {
      if id in s.boxes {
        assert HoldsAt(tree, s, FamilyKey(EscrowDueFamily, s, id));
      }
    }
  }

  /** The releasable escrows, by release height and id, as many as a block returns. */
  method GetVouchEscrowsReleasableAt(
    view: TreeView, ctx: Ctx, l: Layout, height: int, ghost tree: AuthTree, ghost s: State, ghost leaves: Leaves)
    returns (r: Option<seq<Live>>)
    requires view.Valid() && FixedLength(view.session, view.top) && RangeOk(l.rangeOf(EscrowDueFamily), view.top)
    modifies view
    ensures view.Valid()
    ensures Serves(view, ctx, l, tree, s, leaves) ==> r == Some(EscrowsReleasableAt(ctx, s.boxes, height))
  {
    r := IndexedBoxes(view, ctx, l, EscrowDueFamily, UpTo(height), MAX_ESCROW_RETURNS_PER_BLOCK, IsEscrowBox, tree, s,
        leaves);
    if Serves(view, ctx, l, tree, s, leaves) {
      EscrowDueReadsAs(ctx, tree, s, height);
      DueStopsOnce(ctx, l, EscrowDueFamily, UpTo(height));
      ByRankRanks(ctx);
      ListingIsQuery(ctx, l, tree, s, leaves, EscrowDueFamily, UpTo(height), ReleasableBy(height), ByRelease(ctx));
      TakenLivesAt(s.boxes, IdsOf(l, FullListing(l, leaves, EscrowDueFamily, UpTo(height))),
          MAX_ESCROW_RETURNS_PER_BLOCK);
    }
  }

  /** Each bond's invitee was granted, as at every reachable state. */
  ghost predicate BondsGranted(s: State) {
    forall id | id in s.boxes && s.boxes[id].Bond? ::
      s.boxes[id].inviteePublicKey in s.records && s.records[s.boxes[id].inviteePublicKey].invitedAtBlock >= 1
  }

  ghost predicate IsDue(s: State, maxInvitedAt: int, id: BoxId) {
    id in s.boxes && InvitedBy(s.records, s.boxes[id], maxInvitedAt)
  }

  lemma BondTakes(tree: AuthTree, s: State, maxInvitedAt: int, id: BoxId)
    requires Represents(tree, s) && BondsGranted(s)
    ensures Takes(BondDueFamily, tree, s, UpTo(maxInvitedAt), id) <==> IsDue(s, maxInvitedAt, id)
  {
    if id in s.boxes {
      assert HoldsAt(tree, s, FamilyKey(BondDueFamily, s, id));
    }
  }

  ghost function DueOf(s: State, maxInvitedAt: int, id: BoxId): Due
    requires IsDue(s, maxInvitedAt, id)
  {
    Due(Live(id, s.boxes[id]), s.records[s.boxes[id].inviteePublicKey].invitedAtBlock)
  }

  ghost function DuesAt(s: State, maxInvitedAt: int, ids: seq<BoxId>): (ds: seq<Due>)
    requires forall id | id in ids :: IsDue(s, maxInvitedAt, id)
    ensures |ds| == |ids|
    ensures forall i | 0 <= i < |ds| :: ds[i] == DueOf(s, maxInvitedAt, ids[i])
  {
    if ids == [] then [] else [DueOf(s, maxInvitedAt, ids[0])] + DuesAt(s, maxInvitedAt, ids[1..])
  }

  lemma BondPlace(ctx: Ctx, s: State, maxInvitedAt: int, id: BoxId)
    requires IsDue(s, maxInvitedAt, id)
    ensures ByGrant(ctx)(DueOf(s, maxInvitedAt, id)) == PlaceOf(ctx, FamilyKey(BondDueFamily, s, id))
  {
  }

  lemma BondIds(ctx: Ctx, l: Layout, tree: AuthTree, s: State, leaves: Leaves, maxInvitedAt: int)
    requires Lays(ctx, l) && Stored(l, tree, leaves) && Represents(tree, s) && BondsGranted(s)
    ensures forall id :: id in IdsOf(l, FullListing(l, leaves, BondDueFamily, UpTo(maxInvitedAt))) <==>
      IsDue(s, maxInvitedAt, id)
  {
    var ids := IdsOf(l, FullListing(l, leaves, BondDueFamily, UpTo(maxInvitedAt)));
    AllTaken(ctx, l, tree, s, leaves, BondDueFamily, UpTo(maxInvitedAt));
    forall id ensures id in ids <==> IsDue(s, maxInvitedAt, id) {
      BondTakes(tree, s, maxInvitedAt, id);
    }
  }

  /** The bond queue's whole listing is the state's due bonds, by grant height and id. */
  lemma BondListing(ctx: Ctx, l: Layout, tree: AuthTree, s: State, leaves: Leaves, maxInvitedAt: int)
    requires RanksApart(ctx) && Lays(ctx, l) && Stored(l, tree, leaves) && Represents(tree, s) && BondsGranted(s)
    ensures var ids := IdsOf(l, FullListing(l, leaves, BondDueFamily, UpTo(maxInvitedAt)));
      && (forall id | id in ids :: IsDue(s, maxInvitedAt, id))
      && DuesAt(s, maxInvitedAt, ids) == Sorted(DueBonds(s, maxInvitedAt), ByGrant(ctx))
  {
    var ids := IdsOf(l, FullListing(l, leaves, BondDueFamily, UpTo(maxInvitedAt)));
    BondIds(ctx, l, tree, s, leaves, maxInvitedAt);
    var ds := DuesAt(s, maxInvitedAt, ids);
    forall i, j | 0 <= i < j < |ds| ensures Precedes(ByGrant(ctx), ds[i], ds[j]) && ds[i] != ds[j] {
      BondsInOrder(ctx, l, tree, s, leaves, maxInvitedAt, i, j);
    }
    DuesAreAll(s, ids, maxInvitedAt);
    DuesApart(ctx, s, maxInvitedAt);
    SortedIsUnique(DueBonds(s, maxInvitedAt), ByGrant(ctx), ds);
  }

  lemma BondsInOrder(
    ctx: Ctx, l: Layout, tree: AuthTree, s: State, leaves: Leaves, maxInvitedAt: int, i: nat, j: nat)
    requires Lays(ctx, l) && Stored(l, tree, leaves) && Represents(tree, s)
    requires i < j < |FullListing(l, leaves, BondDueFamily, UpTo(maxInvitedAt))|
    requires var ids := IdsOf(l, FullListing(l, leaves, BondDueFamily, UpTo(maxInvitedAt)));
      IsDue(s, maxInvitedAt, ids[i]) && IsDue(s, maxInvitedAt, ids[j])
    ensures var ids := IdsOf(l, FullListing(l, leaves, BondDueFamily, UpTo(maxInvitedAt)));
      var a, b := DueOf(s, maxInvitedAt, ids[i]), DueOf(s, maxInvitedAt, ids[j]);
      Precedes(ByGrant(ctx), a, b) && a != b
  {
    var ids := IdsOf(l, FullListing(l, leaves, BondDueFamily, UpTo(maxInvitedAt)));
    ListedInOrder(ctx, l, tree, s, leaves, BondDueFamily, UpTo(maxInvitedAt), i, j);
    BondPlace(ctx, s, maxInvitedAt, ids[i]);
    BondPlace(ctx, s, maxInvitedAt, ids[j]);
  }

  lemma DuesApart(ctx: Ctx, s: State, maxInvitedAt: int)
    requires RanksApart(ctx)
    ensures TellsApart(DueBonds(s, maxInvitedAt), ByGrant(ctx))
  {
    forall a, b | a in DueBonds(s, maxInvitedAt) && b in DueBonds(s, maxInvitedAt) && ByGrant(ctx)(a)
        == ByGrant(ctx)(b) ensures a == b {
      assert ByGrant(ctx)(a).1 == ctx.rank(a.bond.id) && ByGrant(ctx)(b).1 == ctx.rank(b.bond.id);
      assert a.bond.id == b.bond.id;
    }
  }

  lemma DuesAreAll(s: State, ids: seq<BoxId>, maxInvitedAt: int)
    requires forall id :: id in ids <==> IsDue(s, maxInvitedAt, id)
    ensures Members(DuesAt(s, maxInvitedAt, ids)) == DueBonds(s, maxInvitedAt)
  {
    var ds := DuesAt(s, maxInvitedAt, ids);
    forall d ensures d in Members(ds) <==> d in DueBonds(s, maxInvitedAt) {
      if d in ds {
        var i :| 0 <= i < |ds| && ds[i] == d;
        assert ids[i] in ids && IsDue(s, maxInvitedAt, ids[i]);
      }
      if d in DueBonds(s, maxInvitedAt) {
        assert IsDue(s, maxInvitedAt, d.bond.id);
        var i :| 0 <= i < |ids| && ids[i] == d.bond.id;
        assert ds[i] == d;
      }
    }
  }

  lemma TakenBonds(s: State, maxInvitedAt: int, ids: seq<BoxId>, limit: nat)
    requires forall id | id in ids :: IsDue(s, maxInvitedAt, id)
    ensures forall id | id in Take(ids, limit) :: id in s.boxes
    ensures LivesAt(s.boxes, Take(ids, limit)) == BondsOf(Take(DuesAt(s, maxInvitedAt, ids), limit))
  {
    forall id | id in Take(ids, limit) ensures id in s.boxes {
      assert IsDue(s, maxInvitedAt, id);
    }
    var a, b := LivesAt(s.boxes, Take(ids, limit)), BondsOf(Take(DuesAt(s, maxInvitedAt, ids), limit));
    forall i | 0 <= i < |a| ensures a[i] == b[i] {
      assert ids[i] in ids;
    }
  }

  /** The due bonds, by their invitees' grant heights and id, as many as a block settles. */
  method GetBondsInvitedAt(
    view: TreeView, ctx: Ctx, l: Layout, maxInvitedAt: int, ghost tree: AuthTree, ghost s: State, ghost leaves: Leaves)
    returns (r: Option<seq<Live>>)
    requires view.Valid() && FixedLength(view.session, view.top) && RangeOk(l.rangeOf(BondDueFamily), view.top)
    modifies view
    ensures view.Valid()
    ensures Serves(view, ctx, l, tree, s, leaves) && BondsGranted(s) ==> r == Some(BondsInvitedAt(ctx, s, maxInvitedAt))
  {
    r := IndexedBoxes(view, ctx, l, BondDueFamily, UpTo(maxInvitedAt), MAX_BOND_SETTLEMENTS_PER_BLOCK, IsBondBox, tree,
        s, leaves);
    if Serves(view, ctx, l, tree, s, leaves) && BondsGranted(s) {
      forall id ensures Takes(BondDueFamily, tree, s, UpTo(maxInvitedAt), id) ==> id in s.boxes && s.boxes[id].Bond? {
        BondTakes(tree, s, maxInvitedAt, id);
      }
      DueStopsOnce(ctx, l, BondDueFamily, UpTo(maxInvitedAt));
      BondListing(ctx, l, tree, s, leaves, maxInvitedAt);
      TakenBonds(s, maxInvitedAt, IdsOf(l, FullListing(l, leaves, BondDueFamily, UpTo(maxInvitedAt))),
          MAX_BOND_SETTLEMENTS_PER_BLOCK);
    }
  }
}
