/** The list reads as functions of a session, and a block applied over a tree's own reads. */
module OwnReads {
  import opened Wrappers
  import opened Sums
  import opened Orders
  import opened Sorting
  import opened Ledger
  import ApplyBlocks
  import opened Body
  import opened Coinbase
  import opened Queries
  import opened StateReads
  import opened Invariant
  import Blocks
  import opened Tree
  import opened TreeWrites
  import opened TreeViews
  import opened TreeReads
  import opened TreeQueries
  import opened TreeLapses
  import opened TreeRuns
  import opened CommitRuns

  type Session = LeafKey -> Lookup

  /** A session serves a state: it is honest about leaves that store the state's own tree. */
  ghost predicate SessionServes(session: Session, ctx: Ctx, l: Layout, tree: AuthTree, s: State, leaves: Leaves) {
    && Honest(session, leaves, l.top) && RanksApart(ctx) && Lays(ctx, l)
    && Stored(l, tree, leaves) && Represents(tree, s)
  }

  // ---------------------------------------------------------------------------
  // A walk
  // ---------------------------------------------------------------------------

  /** The entries from a key on, one lookup each: none where the tree contradicts itself. */
  function StepsFrom(session: Session, top: nat, range: Range, within: LeafKey -> bool, limit: nat, next: LeafKey)
    : Option<seq<Entry>>
    decreases if next < top then top - next else 0
  {
    if limit == 0 || !Goes(next, top, range, within) then Some([])
    else
      match session(next)
      case Absent(_, _) => None
      case Found(value, after) =>
        if after <= next then None
        else
          var rest := StepsFrom(session, top, range, within, limit - 1, after);
          if rest.None? then None else Some([Entry(next, value)] + rest.value)
  }

  function WalkOver(session: Session, top: nat, range: Range, within: LeafKey -> bool, limit: nat): Option<seq<Entry>> {
    var first := session(range.first);
    var es := if first.Found? && within(range.first) then [Entry(range.first, first.value)] else [];
    if limit == 0 || first.nextKey <= range.first then None
    else
      var rest := StepsFrom(session, top, range, within, limit - |es|, first.nextKey);
      if rest.None? then None else Some(es + rest.value)
  }

  /** A walk under way over a range's listing. */
  ghost predicate Underway(
    leaves: Leaves, range: Range, within: LeafKey -> bool, top: nat, es: seq<Entry>, next: LeafKey)
  {
    && Walking(range, within, range.first, top, es, next)
    && Reached(leaves, range, within, range.first, top, es, next)
  }

  lemma {:induction false} StepsAreListing(
    session: Session, leaves: Leaves, top: nat, range: Range, within: LeafKey -> bool, limit: nat, es: seq<Entry>,
    left: nat, next: LeafKey)
    requires Honest(session, leaves, top) && RangeOk(range, top) && StopsOnce(range, within)
    requires Underway(leaves, range, within, top, es, next) && |es| + left == limit
    ensures var rest := StepsFrom(session, top, range, within, left, next);
      rest.Some? && es + rest.value == Take(Listing(leaves, range, range.first, within), limit)
    decreases if next < top then top - next else 0
  {
    if left == 0 || !Goes(next, top, range, within) {
      StepsEnd(leaves, top, range, within, limit, es, next);
    } else {
      StepFurther(session, leaves, top, range, within, es, next);
      var e, after := Entry(next, session(next).value), session(next).nextKey;
      StepsAreListing(session, leaves, top, range, within, limit, es + [e], left - 1, after);
      Rejoined(es, e, StepsFrom(session, top, range, within, left - 1, after).value);
    }
  }

  lemma Rejoined(es: seq<Entry>, e: Entry, rest: seq<Entry>)
    ensures es + [e] + rest == es + ([e] + rest)
  {
  }

  lemma StepFurther(
    session: Session, leaves: Leaves, top: nat, range: Range, within: LeafKey -> bool, es: seq<Entry>, next: LeafKey)
    requires Honest(session, leaves, top) && Underway(leaves, range, within, top, es, next)
    requires Goes(next, top, range, within)
    ensures session(next).Found? && next < session(next).nextKey
    ensures Underway(leaves, range, within, top, es + [Entry(next, session(next).value)], session(next).nextKey)
  {
    assert HonestAt(session, leaves, top, next);
    var value, after := session(next).value, session(next).nextKey;
    WalksFurther(range, within, range.first, top, es, next, value, after);
    ReachesFurther(leaves, range, within, range.first, top, es, next, after);
  }

  lemma StepsEnd(
    leaves: Leaves, top: nat, range: Range, within: LeafKey -> bool, limit: nat, es: seq<Entry>, next: LeafKey)
    requires (forall k | k in leaves :: k < top) && RangeOk(range, top) && StopsOnce(range, within)
    requires Underway(leaves, range, within, top, es, next)
    requires |es| == limit || (|es| < limit && !Goes(next, top, range, within))
    ensures es + [] == Take(Listing(leaves, range, range.first, within), limit)
  {
    WalkEnds(leaves, range, limit, within, range.first, top, es, next);
    assert es + [] == es;
  }

  lemma WalkIsListing(
    session: Session, leaves: Leaves, top: nat, range: Range, within: LeafKey -> bool, limit: nat)
    requires Honest(session, leaves, top) && RangeOk(range, top) && StopsOnce(range, within) && limit > 0
    ensures WalkOver(session, top, range, within, limit)
      == Some(Take(Listing(leaves, range, range.first, within), limit))
  {
    var first := session(range.first);
    assert HonestAt(session, leaves, top, range.first);
    var es := if first.Found? && within(range.first) then [Entry(range.first, first.value)] else [];
    FirstReached(leaves, range, within, range.first, top, es, first.nextKey);
    StepsAreListing(session, leaves, top, range, within, limit, es, limit - |es|, first.nextKey);
  }

  // ---------------------------------------------------------------------------
  // The boxes entries name
  // ---------------------------------------------------------------------------

  function BoxAt(session: Session, l: Layout, id: BoxId, expected: Box -> bool): Option<Box> {
    if !l.fits(BoxKey(id)) then None
    else
      match session(l.enc(BoxKey(id)))
      case Absent(_, _) => None
      case Found(value, _) => if value.BoxRecord? && expected(value.box) then Some(value.box) else None
  }

  /** The boxes, or nothing where one is not live or of another type. */
  function BoxesAt(session: Session, l: Layout, ids: seq<BoxId>, expected: Box -> bool): Option<seq<Live>> {
    if ids == [] then Some([])
    else
      var box, rest := BoxAt(session, l, ids[0], expected), BoxesAt(session, l, ids[1..], expected);
      if box.None? || rest.None? then None else Some([Live(ids[0], box.value)] + rest.value)
  }

  lemma BoxIsLive(
    session: Session, ctx: Ctx, l: Layout, tree: AuthTree, s: State, leaves: Leaves, id: BoxId, expected: Box -> bool)
    requires SessionServes(session, ctx, l, tree, s, leaves)
    requires l.fits(BoxKey(id)) && id in s.boxes && expected(s.boxes[id])
    ensures BoxAt(session, l, id, expected) == Some(s.boxes[id])
  {
    assert LaysKey(l, BoxKey(id)) && HoldsAt(tree, s, BoxKey(id));
    StoredOnce(ctx, l, tree, leaves, BoxKey(id));
    assert HonestAt(session, leaves, l.top, l.enc(BoxKey(id)));
  }

  lemma {:induction false} BoxesAreLive(
    session: Session, ctx: Ctx, l: Layout, tree: AuthTree, s: State, leaves: Leaves, ids: seq<BoxId>,
    expected: Box -> bool)
    requires SessionServes(session, ctx, l, tree, s, leaves) && AllNamed(l, s, ids, expected)
    ensures forall id | id in ids :: id in s.boxes
    ensures BoxesAt(session, l, ids, expected) == Some(LivesAt(s.boxes, ids))
    decreases |ids|
  {
    if ids != [] {
      assert ids[0] in ids && forall id | id in ids[1..] :: id in ids;
      BoxIsLive(session, ctx, l, tree, s, leaves, ids[0], expected);
      BoxesAreLive(session, ctx, l, tree, s, leaves, ids[1..], expected);
    }
  }

  /** A family's first boxes within a height. A read the tree contradicts answers nothing. */
  function IndexedAt(session: Session, l: Layout, f: Family, keep: int -> bool, limit: nat, expected: Box -> bool)
    : seq<Live>
  {
    var walked := WalkOver(session, l.top, l.rangeOf(f), WithinHeight(l, keep), limit);
    if walked.None? then []
    else
      var found := BoxesAt(session, l, IdsOf(l, walked.value), expected);
      if found.None? then [] else found.value
  }

  lemma IndexedAreListed(
    session: Session, ctx: Ctx, l: Layout, tree: AuthTree, s: State, leaves: Leaves, f: Family, keep: int -> bool,
    limit: nat, expected: Box -> bool)
    requires SessionServes(session, ctx, l, tree, s, leaves) && NamesBoxes(f) && limit > 0
    requires StopsOnce(l.rangeOf(f), WithinHeight(l, keep))
    requires forall id | Takes(f, tree, s, keep, id) :: expected(s.boxes[id])
    ensures var ids := Take(IdsOf(l, FullListing(l, leaves, f, keep)), limit);
      (forall id | id in ids :: id in s.boxes)
      && IndexedAt(session, l, f, keep, limit, expected) == LivesAt(s.boxes, ids)
  {
    assert LaysFamily(l, f);
    WalkIsListing(session, leaves, l.top, l.rangeOf(f), WithinHeight(l, keep), limit);
    TakenIds(l, FullListing(l, leaves, f, keep), limit);
    NamedAreLive(ctx, l, tree, s, leaves, f, keep, expected);
    BoxesAreLive(session, ctx, l, tree, s, leaves, Take(IdsOf(l, FullListing(l, leaves, f, keep)), limit), expected);
  }

  // ---------------------------------------------------------------------------
  // The owned and the protocol boxes
  // ---------------------------------------------------------------------------

  lemma FamilyIsQuery(
    session: Session, ctx: Ctx, l: Layout, tree: AuthTree, s: State, leaves: Leaves, f: Family, p: Box -> bool,
    expected: Box -> bool, limit: nat)
    requires SessionServes(session, ctx, l, tree, s, leaves) && NamesBoxes(f) && limit > 0
    requires ReadsAs(ctx, tree, s, f, AnyHeight, p, ByRank(ctx)) && forall b | p(b) :: expected(b)
    ensures IndexedAt(session, l, f, AnyHeight, limit, expected)
      == Take(Sorted(LivesWhere(s.boxes, p), ByRank(ctx)), limit)
  {
    AnyStopsOnce(l, l.rangeOf(f));
    IndexedAreListed(session, ctx, l, tree, s, leaves, f, AnyHeight, limit, expected);
    ByRankRanks(ctx);
    ListingIsQuery(ctx, l, tree, s, leaves, f, AnyHeight, p, ByRank(ctx));
    TakenLivesAt(s.boxes, IdsOf(l, FullListing(l, leaves, f, AnyHeight)), limit);
  }

  /** Without a limit of its own, a family's read takes all there is. */
  lemma WholeFamilyIsQuery(
    session: Session, ctx: Ctx, l: Layout, tree: AuthTree, s: State, leaves: Leaves, f: Family, p: Box -> bool,
    expected: Box -> bool)
    requires SessionServes(session, ctx, l, tree, s, leaves) && NamesBoxes(f)
    requires ReadsAs(ctx, tree, s, f, AnyHeight, p, ByRank(ctx)) && forall b | p(b) :: expected(b)
    ensures IndexedAt(session, l, f, AnyHeight, l.top, expected) == Sorted(LivesWhere(s.boxes, p), ByRank(ctx))
  {
    assert LaysFamily(l, f);
    FamilyIsQuery(session, ctx, l, tree, s, leaves, f, p, expected, l.top);
    WholeListing(ctx, l, leaves, f, AnyHeight);
    ByRankRanks(ctx);
    ListingIsQuery(ctx, l, tree, s, leaves, f, AnyHeight, p, ByRank(ctx));
    TakenIds(l, FullListing(l, leaves, f, AnyHeight), l.top);
    TakenLivesAt(s.boxes, IdsOf(l, FullListing(l, leaves, f, AnyHeight)), l.top);
  }

  function FirstAt(session: Session, l: Layout, kind: nat, p: Box -> bool): Option<Live> {
    var found := IndexedAt(session, l, TypeFamily(kind), AnyHeight, 1, p);
    if found == [] then None else Some(found[0])
  }

  /** The two boxes at most, the one of more value first. */
  function ByValueAt(ctx: Ctx, found: seq<Live>): seq<Live> {
    if |found| == 2 && !Precedes(ByValue(ctx), found[0], found[1]) then [found[1], found[0]] else found
  }

  lemma KarmaIsQuery(ctx: Ctx, boxes: Boxes, owner: Key)
    requires RanksApart(ctx) && |KarmaBoxes(ctx, boxes, owner)| < 3
    ensures ByValueAt(ctx, Take(Sorted(LivesWhere(boxes, KarmaOf(owner)), ByRank(ctx)), 3))
      == KarmaBoxes(ctx, boxes, owner)
  {
    var all := LivesWhere(boxes, KarmaOf(owner));
    SameLength(ctx, boxes, owner);
    SortedLists(all, ByRank(ctx));
    ByRankRanks(ctx);
    LivesApart(ctx, boxes, KarmaOf(owner), ByValue(ctx));
    TwoByValue(ctx, all, Sorted(all, ByRank(ctx)));
  }

  lemma TwoByValue(ctx: Ctx, all: set<Live>, found: seq<Live>)
    requires TellsApart(all, ByValue(ctx)) && Members(found) == all && Distinct(found) && |found| < 3
    ensures ByValueAt(ctx, found) == Sorted(all, ByValue(ctx))
  {
    var out := ByValueAt(ctx, found);
    if |found| == 2 {
      assert found == [found[0], found[1]];
      assert Members(out) == {found[0], found[1]} == all;
    }
    SortedIsUnique(all, ByValue(ctx), out);
  }

  // ---------------------------------------------------------------------------
  // The pairs and the lapses
  // ---------------------------------------------------------------------------

  function PairAt(session: Session, l: Layout, voucher: Key, target: Key): seq<Live> {
    if !l.fits(VouchPairKey(voucher, target)) then []
    else
      match session(l.enc(VouchPairKey(voucher, target)))
      case Absent(_, _) => []
      case Found(value, _) =>
        var found := if value.PairValue? then BoxesAt(session, l, [value.id], IsVouchBox) else None;
        if found.None? then [] else found.value
  }

  lemma PairIsQuery(
    session: Session, ctx: Ctx, l: Layout, tree: AuthTree, s: State, leaves: Leaves, voucher: Key, target: Key)
    requires SessionServes(session, ctx, l, tree, s, leaves) && PairsOnce(s.boxes)
    ensures PairAt(session, l, voucher, target) == PairBoxes(ctx, s.boxes, voucher, target)
  {
    var key := VouchPairKey(voucher, target);
    assert HoldsAt(tree, s, key);
    if l.fits(key) {
      assert LaysKey(l, key);
      StoredOnce(ctx, l, tree, leaves, key);
      assert HonestAt(session, leaves, l.top, l.enc(key));
    }
    if id :| PairBox(s.boxes, voucher, target, id) {
      OnePairBox(ctx, s.boxes, voucher, target, id);
      BoxFits(l, tree, s, leaves, id);
      BoxesAreLive(session, ctx, l, tree, s, leaves, [id], IsVouchBox);
    } else {
      NoPairBox(ctx, s.boxes, voucher, target);
    }
  }

  /** A voucher's first vouches by target. */
  function CastsAt(session: Session, l: Layout, voucher: Key, limit: nat): seq<Live> {
    var walked := WalkOver(session, l.top, l.rangeOf(PairFamily(voucher)), Everything, limit);
    if walked.None? then []
    else
      var found := BoxesAt(session, l, NamedIds(walked.value), IsVouchBox);
      if found.None? then [] else found.value
  }

  lemma CastsAreListed(
    session: Session, ctx: Ctx, l: Layout, tree: AuthTree, s: State, leaves: Leaves, voucher: Key, limit: nat)
    requires SessionServes(session, ctx, l, tree, s, leaves) && PairsOnce(s.boxes) && limit > 0
    ensures CastsAt(session, l, voucher, limit) == Take(CastsListed(s.boxes, voucher), limit)
  {
    assert LaysFamily(l, PairFamily(voucher));
    CastsWalked(ctx, l, tree, s, leaves, voucher, limit);
    WalkIsListing(session, leaves, l.top, l.rangeOf(PairFamily(voucher)), Everything, limit);
    BoxesAreLive(session, ctx, l, tree, s, leaves, NamedIds(Take(PairListing(l, leaves, voucher), limit)), IsVouchBox);
  }

  /** One range after another, under one limit. */
  function LapsesOf(session: Session, l: Layout, vouchers: seq<Key>, limit: nat): seq<Live> {
    if vouchers == [] || limit == 0 then []
    else
      var casts := CastsAt(session, l, vouchers[0], limit);
      casts + if |casts| < limit then LapsesOf(session, l, vouchers[1..], limit - |casts|) else []
  }

  lemma {:induction false} LapsesAreJoined(
    session: Session, ctx: Ctx, l: Layout, tree: AuthTree, s: State, leaves: Leaves, vouchers: seq<Key>, limit: nat)
    requires SessionServes(session, ctx, l, tree, s, leaves) && PairsOnce(s.boxes)
    ensures LapsesOf(session, l, vouchers, limit) == Take(RangesJoined(s.boxes, vouchers), limit)
    decreases |vouchers|
  {
    if vouchers != [] && limit > 0 {
      CastsAreListed(session, ctx, l, tree, s, leaves, vouchers[0], limit);
      var a, b := CastsListed(s.boxes, vouchers[0]), RangesJoined(s.boxes, vouchers[1..]);
      var left := if |a| < limit then limit - |a| else 0;
      LapsesAreJoined(session, ctx, l, tree, s, leaves, vouchers[1..], left);
      OneRangeFirst(session, l, vouchers, limit, left, a, b);
    }
  }

  /** The first range's part of the limit, and the others' of what it leaves. */
  lemma OneRangeFirst(
    session: Session, l: Layout, vouchers: seq<Key>, limit: nat, left: nat, a: seq<Live>, b: seq<Live>)
    requires vouchers != [] && limit > 0 && left == if |a| < limit then limit - |a| else 0
    requires CastsAt(session, l, vouchers[0], limit) == Take(a, limit)
    requires LapsesOf(session, l, vouchers[1..], left) == Take(b, left)
    ensures LapsesOf(session, l, vouchers, limit) == Take(a + b, limit)
  {
    if |a| < limit {
      TakeJoined(a, b, limit);
    } else {
      TakeReached(a, b, limit);
    }
  }

  function LapsesAt(session: Session, l: Layout): seq<Live> {
    var walked := WalkOver(session, l.top, l.rangeOf(LapsedFamily), Everything, l.top);
    if walked.None? then []
    else LapsesOf(session, l, Identities(l, walked.value), MAX_LAPSE_WITHDRAWALS_PER_BLOCK)
  }

  lemma LapsesAreQuery(session: Session, ctx: Ctx, l: Layout, tree: AuthTree, s: State, leaves: Leaves)
    requires SessionServes(session, ctx, l, tree, s, leaves) && PairsOnce(s.boxes)
    ensures LapsesAt(session, l) == LapsedVouches(s)
  {
    assert LaysFamily(l, LapsedFamily);
    AllLapsed(ctx, l, tree, s, leaves);
    WalkIsListing(session, leaves, l.top, l.rangeOf(LapsedFamily), Everything, l.top);
    LapsesAreJoined(session, ctx, l, tree, s, leaves, Identities(l, LapsedListing(l, leaves)),
      MAX_LAPSE_WITHDRAWALS_PER_BLOCK);
  }

  // ---------------------------------------------------------------------------
  // The due queues
  // ---------------------------------------------------------------------------

  function EscrowsDueAt(session: Session, l: Layout, height: int): seq<Live> {
    IndexedAt(session, l, EscrowDueFamily, UpTo(height), MAX_ESCROW_RETURNS_PER_BLOCK, IsEscrowBox)
  }

  function BondsDueAt(session: Session, l: Layout, maxInvitedAt: int): seq<Live> {
    IndexedAt(session, l, BondDueFamily, UpTo(maxInvitedAt), MAX_BOND_SETTLEMENTS_PER_BLOCK, IsBondBox)
  }

  lemma EscrowsDueAreQuery(
    session: Session, ctx: Ctx, l: Layout, tree: AuthTree, s: State, leaves: Leaves, height: int)
    requires SessionServes(session, ctx, l, tree, s, leaves)
    ensures EscrowsDueAt(session, l, height) == EscrowsReleasableAt(ctx, s.boxes, height)
  {
    EscrowDueReadsAs(ctx, tree, s, height);
    DueStopsOnce(ctx, l, EscrowDueFamily, UpTo(height));
    IndexedAreListed(session, ctx, l, tree, s, leaves, EscrowDueFamily, UpTo(height), MAX_ESCROW_RETURNS_PER_BLOCK,
      IsEscrowBox);
    ByRankRanks(ctx);
    ListingIsQuery(ctx, l, tree, s, leaves, EscrowDueFamily, UpTo(height), ReleasableBy(height), ByRelease(ctx));
    TakenLivesAt(s.boxes, IdsOf(l, FullListing(l, leaves, EscrowDueFamily, UpTo(height))),
      MAX_ESCROW_RETURNS_PER_BLOCK);
  }

  lemma BondsDueAreQuery(
    session: Session, ctx: Ctx, l: Layout, tree: AuthTree, s: State, leaves: Leaves, maxInvitedAt: int)
    requires SessionServes(session, ctx, l, tree, s, leaves) && BondsGranted(s)
    ensures BondsDueAt(session, l, maxInvitedAt) == BondsInvitedAt(ctx, s, maxInvitedAt)
  {
    forall id ensures Takes(BondDueFamily, tree, s, UpTo(maxInvitedAt), id) ==> id in s.boxes && s.boxes[id].Bond? {
      BondTakes(tree, s, maxInvitedAt, id);
    }
    DueStopsOnce(ctx, l, BondDueFamily, UpTo(maxInvitedAt));
    IndexedAreListed(session, ctx, l, tree, s, leaves, BondDueFamily, UpTo(maxInvitedAt),
      MAX_BOND_SETTLEMENTS_PER_BLOCK, IsBondBox);
    BondListing(ctx, l, tree, s, leaves, maxInvitedAt);
    TakenBonds(s, maxInvitedAt, IdsOf(l, FullListing(l, leaves, BondDueFamily, UpTo(maxInvitedAt))),
      MAX_BOND_SETTLEMENTS_PER_BLOCK);
  }

  // ---------------------------------------------------------------------------
  // All of them
  // ---------------------------------------------------------------------------

  /** A session's own reads. */
  function ReadsOver(session: Session, ctx: Ctx, l: Layout): Reads {
    Reads(
      (owner: Key) => ByValueAt(ctx, IndexedAt(session, l, KarmaFamily(owner), AnyHeight, 3, IsKarmaBox)),
      (author: Key) => IndexedAt(session, l, AccrualFamily(author), AnyHeight, l.top, IsAccrualBox),
      (voucher: Key) => IndexedAt(session, l, EscrowFamily(voucher), AnyHeight, l.top, IsEscrowBox),
      (voucher: Key, target: Key) => PairAt(session, l, voucher, target),
      FirstAt(session, l, 0, IsEmission),
      FirstAt(session, l, 1, IsTreasury),
      FirstAt(session, l, 2, IsKarmaPool),
      FirstAt(session, l, 3, IsBackerPool),
      (maxInvitedAt: int) => BondsDueAt(session, l, maxInvitedAt),
      (height: int) => EscrowsDueAt(session, l, height),
      LapsesAt(session, l))
  }

  /** What the reads rest on, as at every reachable state. */
  ghost predicate ReadableState(ctx: Ctx, s: State) {
    PairsOnce(s.boxes) && BondsGranted(s) && forall owner :: |KarmaBoxes(ctx, s.boxes, owner)| < 3
  }

  lemma OwnedAnswered(session: Session, ctx: Ctx, l: Layout, tree: AuthTree, s: State, leaves: Leaves, q: Query)
    requires SessionServes(session, ctx, l, tree, s, leaves) && ReadableState(ctx, s)
    requires q.KarmaBy? || q.AccrualsBy? || q.EscrowsBy?
    ensures Answered(ctx, ReadsOver(session, ctx, l), s, q)
  {
    match q
    case KarmaBy(owner) =>
      OwnedReadsAs(ctx, tree, s, KarmaFamily(owner), KarmaOf(owner));
      FamilyIsQuery(session, ctx, l, tree, s, leaves, KarmaFamily(owner), KarmaOf(owner), IsKarmaBox, 3);
      KarmaIsQuery(ctx, s.boxes, owner);
    case AccrualsBy(author) =>
      OwnedReadsAs(ctx, tree, s, AccrualFamily(author), AccrualOf(author));
      WholeFamilyIsQuery(session, ctx, l, tree, s, leaves, AccrualFamily(author), AccrualOf(author), IsAccrualBox);
    case EscrowsBy(voucher) =>
      OwnedReadsAs(ctx, tree, s, EscrowFamily(voucher), EscrowOf(voucher));
      WholeFamilyIsQuery(session, ctx, l, tree, s, leaves, EscrowFamily(voucher), EscrowOf(voucher), IsEscrowBox);
  }

  lemma FirstIsQuery(
    session: Session, ctx: Ctx, l: Layout, tree: AuthTree, s: State, leaves: Leaves, kind: nat, p: Box -> bool)
    requires SessionServes(session, ctx, l, tree, s, leaves) && KindIs(kind, p)
    ensures FirstAt(session, l, kind, p) == FirstLive(ctx, s.boxes, p)
  {
    TypeReadsAs(ctx, tree, s, kind, p);
    FamilyIsQuery(session, ctx, l, tree, s, leaves, TypeFamily(kind), p, p, 1);
  }

  lemma Kinds()
    ensures KindIs(0, IsEmission) && KindIs(1, IsTreasury) && KindIs(2, IsKarmaPool) && KindIs(3, IsBackerPool)
  {
  }

  lemma ProtocolAnswered(session: Session, ctx: Ctx, l: Layout, tree: AuthTree, s: State, leaves: Leaves)
    requires SessionServes(session, ctx, l, tree, s, leaves)
    ensures Answered(ctx, ReadsOver(session, ctx, l), s, ProtocolBoxes)
  {
    Kinds();
    FirstIsQuery(session, ctx, l, tree, s, leaves, 0, IsEmission);
    FirstIsQuery(session, ctx, l, tree, s, leaves, 1, IsTreasury);
    FirstIsQuery(session, ctx, l, tree, s, leaves, 2, IsKarmaPool);
    FirstIsQuery(session, ctx, l, tree, s, leaves, 3, IsBackerPool);
  }

  /** Over a session that serves a reachable state, each of its reads is that state's query. */
  lemma OwnReadsAnswer(session: Session, ctx: Ctx, l: Layout, tree: AuthTree, s: State, leaves: Leaves)
    requires SessionServes(session, ctx, l, tree, s, leaves) && ReadableState(ctx, s)
    ensures Answers(ctx, ReadsOver(session, ctx, l), s)
  {
    forall q ensures Answered(ctx, ReadsOver(session, ctx, l), s, q) {
      match q
      case KarmaBy(_) => OwnedAnswered(session, ctx, l, tree, s, leaves, q);
      case AccrualsBy(_) => OwnedAnswered(session, ctx, l, tree, s, leaves, q);
      case EscrowsBy(_) => OwnedAnswered(session, ctx, l, tree, s, leaves, q);
      case VouchesBy(voucher, target) => PairIsQuery(session, ctx, l, tree, s, leaves, voucher, target);
      case ProtocolBoxes => ProtocolAnswered(session, ctx, l, tree, s, leaves);
      case BondsDue(invitedAt) => BondsDueAreQuery(session, ctx, l, tree, s, leaves, invitedAt);
      case EscrowsDue(height) => EscrowsDueAreQuery(session, ctx, l, tree, s, leaves, height);
      case Lapses => LapsesAreQuery(session, ctx, l, tree, s, leaves);
    }
  }

  /**
   * A block from a reachable state, applied over the tree's own reads: it comes to what the rules say, and its
   * writes leave the tree of the state it leaves.
   */
  method CommitOverTree(
    ctx: Ctx, view: State, tree: AuthTree, session: Session, l: Layout, block: Blocks.Block, rank: TreeKey -> nat,
    ghost leaves: Leaves, ghost height: int, ghost applied: set<TxCore>) returns (out: Outcome<(State, AuthTree)>)
    requires ValidCtx(ctx) && SessionServes(session, ctx, l, tree, view, leaves)
    requires Inv(ctx, view, height, applied) && 0 <= height < block.height
    requires ApplyBlocks.PostsHistoried(view.posts, applied)
    ensures CommittedAs(out, Blocks.ApplyBlock(ctx, view, block))
  {
    ReachableIsReadable(ctx, view, height, applied);
    OwnReadsAnswer(session, ctx, l, tree, view, leaves);
    out := CommitBlock(ctx, view, tree, ReadsOver(session, ctx, l), block, rank, height, applied);
  }
}
