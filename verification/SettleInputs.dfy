/** The settlement's derived inputs are live and pairwise distinct. */
module SettleInputs {
  import opened Wrappers
  import opened Sums
  import opened Orders
  import opened Ledger
  import opened Engine
  import opened Body
  import opened Coinbase
  import opened Queries
  import opened Decay
  import opened Settlement
  import opened Blocks
  import opened Applying
  import opened Lawful
  import opened Invariant
  import opened BodyRun
  import opened BodyKeeps
  import opened BodyOutcome
  import opened AfterBody

  // ---------------------------------------------------------------------------
  // Lists gathered by key
  // ---------------------------------------------------------------------------

  ghost function Gather(keys: seq<Key>, f: Key -> seq<Live>): seq<Live> {
    if keys == [] then [] else f(keys[0]) + Gather(keys[1..], f)
  }

  /** The identity a karma box or an accrual belongs to. */
  function KeyOf(b: Box): Key {
    match b
    case Karma(_, _, owner, _) => owner
    case LikeAccrual(_, _, author) => author
    case _ => 0
  }

  ghost predicate KeyedList(boxes: Boxes, f: Key -> seq<Live>, k: Key) {
    LiveList(boxes, f(k)) && forall l | l in f(k) :: KeyOf(l.box) == k
  }

  lemma JoinLive(boxes: Boxes, a: seq<Live>, b: seq<Live>)
    requires LiveList(boxes, a) && LiveList(boxes, b) && ApartIds(a, b)
    ensures LiveList(boxes, a + b)
  {
    DistinctConcat(a, b);
  }

  lemma {:induction false} GatherLive(boxes: Boxes, keys: seq<Key>, f: Key -> seq<Live>)
    requires Distinct(keys) && forall k | k in keys :: KeyedList(boxes, f, k)
    ensures LiveList(boxes, Gather(keys, f))
    ensures forall l | l in Gather(keys, f) :: KeyOf(l.box) in keys && l in f(KeyOf(l.box))
    ensures forall k, l | k in keys && l in f(k) :: l in Gather(keys, f)
    decreases |keys|
  {
    if keys == [] {
    } else {
      var head, rest := f(keys[0]), Gather(keys[1..], f);
      assert KeyedList(boxes, f, keys[0]);
      DistinctTail(keys);
      GatherLive(boxes, keys[1..], f);
      forall x, y | x in head && y in rest ensures x.id != y.id {
        assert KeyOf(x.box) != KeyOf(y.box);
      }
      JoinLive(boxes, head, rest);
    }
  }

  // ---------------------------------------------------------------------------
  // The keyed legs
  // ---------------------------------------------------------------------------

  function Listing(l: Option<Live>): seq<Live> {
    if l.Some? then [l.value] else []
  }

  ghost function CarryBy(ctx: Ctx, boxes: Boxes, markers: seq<Live>): Key -> seq<Live> {
    (author: Key) => Listing(CarryOf(ctx, boxes, markers, author))
  }

  lemma {:induction false} CarriedIsGathered(ctx: Ctx, boxes: Boxes, markers: seq<Live>, authors: seq<Key>)
    ensures CarriedBoxes(PayoutsFor(ctx, boxes, markers, authors)) == Gather(authors, CarryBy(ctx, boxes, markers))
  {
    if authors != [] {
      CarriedIsGathered(ctx, boxes, markers, authors[1..]);
      var ps := PayoutsFor(ctx, boxes, markers, authors);
      assert ps[1..] == PayoutsFor(ctx, boxes, markers, authors[1..]);
    }
  }

  ghost function ConsumedBy(ctx: Ctx, s: State, cores: seq<TxCore>, height: int): Key -> seq<Live>
    requires ValidCtx(ctx)
  {
    (owner: Key) =>
      if OwedPeriods(ctx, RecordOf(s.records, owner), height) <= 0 then []
      else PlanOf(ctx, s.records, owner, Projected(ctx, s.boxes, cores, owner), height).consumed
  }

  lemma {:induction false} ConsumedIsGathered(ctx: Ctx, s: State, cores: seq<TxCore>, owners: seq<Key>, height: int)
    requires ValidCtx(ctx)
    ensures Consumed(PlansFor(ctx, s, cores, owners, height)) == Gather(owners, ConsumedBy(ctx, s, cores, height))
  {
    if owners != [] {
      ConsumedIsGathered(ctx, s, cores, owners[1..], height);
      var rest := PlansFor(ctx, s, cores, owners[1..], height);
      var plans := PlansFor(ctx, s, cores, owners, height);
      assert plans == rest || plans[1..] == rest;
    }
  }

  ghost function BaseBy(ctx: Ctx, boxes: Boxes, spent: set<BoxId>): Key -> seq<Live> {
    (owner: Key) => Listing(IncomeBox(ctx, boxes, owner, spent))
  }

  lemma {:induction false} BasesAreGathered(ctx: Ctx, boxes: Boxes, es: seq<Earning>, spent: set<BoxId>,
    owners: seq<Key>)
    ensures BaseBoxes(IncomesFor(ctx, boxes, es, spent, owners)) == Gather(owners, BaseBy(ctx, boxes, spent))
  {
    if owners != [] {
      BasesAreGathered(ctx, boxes, es, spent, owners[1..]);
      var ins := IncomesFor(ctx, boxes, es, spent, owners);
      assert ins[1..] == IncomesFor(ctx, boxes, es, spent, owners[1..]);
    }
  }

  lemma ListingIsLive(boxes: Boxes, l: Live)
    requires l.id in boxes && boxes[l.id] == l.box
    ensures LiveList(boxes, [l])
  {
  }

  ghost predicate IsAccrualOf(boxes: Boxes, author: Key, l: Live) {
    l.id in boxes && boxes[l.id] == l.box && l.box.LikeAccrual? && l.box.author == author
  }

  lemma AccrualBoxesHold(ctx: Ctx, boxes: Boxes, author: Key)
    ensures var ls := AccrualBoxes(ctx, boxes, author);
      LiveList(boxes, ls) && forall l :: l in ls <==> IsAccrualOf(boxes, author, l)
  {
    SortedLives(boxes, AccrualOf(author), ByRank(ctx));
  }

  /** The author's accrual that is none of the block's markers, where there is one. */
  lemma CarryIs(ctx: Ctx, boxes: Boxes, markers: seq<Live>, author: Key)
    ensures var carried := CarryOf(ctx, boxes, markers, author);
      && (carried.Some? ==> IsAccrualOf(boxes, author, carried.value) && carried.value.id !in IdSet(markers))
      && (carried.None? ==> forall id | id in boxes && boxes[id].LikeAccrual? && boxes[id].author == author ::
         id in IdSet(markers))
  {
    AccrualBoxesHold(ctx, boxes, author);
    var ls := AccrualBoxes(ctx, boxes, author);
    if CarryOf(ctx, boxes, markers, author).None? {
      forall id | id in boxes && boxes[id].LikeAccrual? && boxes[id].author == author ensures id in IdSet(markers) {
        assert IsAccrualOf(boxes, author, Live(id, boxes[id]));
        assert Live(id, boxes[id]) in ls;
      }
    }
  }

  lemma CarriedAreLive(ctx: Ctx, boxes: Boxes, markers: seq<Live>, authors: seq<Key>)
    requires Distinct(authors)
    ensures var ls := CarriedBoxes(PayoutsFor(ctx, boxes, markers, authors));
      && LiveList(boxes, ls)
      && forall l | l in ls :: l.box.LikeAccrual? && l.id !in IdSet(markers) && KeyOf(l.box) in authors
  {
    var f := CarryBy(ctx, boxes, markers);
    CarriedIsGathered(ctx, boxes, markers, authors);
    forall k | k in authors ensures KeyedList(boxes, f, k) {
      CarryIs(ctx, boxes, markers, k);
    }
    GatherLive(boxes, authors, f);
    forall l | l in Gather(authors, f) ensures l.box.LikeAccrual? && l.id !in IdSet(markers) {
      CarryIs(ctx, boxes, markers, KeyOf(l.box));
    }
  }

  lemma ConsumedAreLive(ctx: Ctx, before: State, cores: seq<TxCore>, now: Boxes, owners: seq<Key>, height: int)
    requires ValidCtx(ctx) && Distinct(owners)
    requires forall owner :: ProjectionLive(ctx, before.boxes, cores, now, owner)
    ensures var ls := Consumed(PlansFor(ctx, before, cores, owners, height));
      LiveList(now, ls) && forall l | l in ls :: l.box.Karma?
  {
    var f := ConsumedBy(ctx, before, cores, height);
    ConsumedIsGathered(ctx, before, cores, owners, height);
    forall k | k in owners ensures KeyedList(now, f, k) {
      ConsumedKeyed(ctx, before, cores, now, k, height);
    }
    GatherLive(now, owners, f);
    forall l | l in Gather(owners, f) ensures l.box.Karma? {
      ConsumedKeyed(ctx, before, cores, now, KeyOf(l.box), height);
    }
  }

  lemma ConsumedKeyed(ctx: Ctx, before: State, cores: seq<TxCore>, now: Boxes, k: Key, height: int)
    requires ValidCtx(ctx) && ProjectionLive(ctx, before.boxes, cores, now, k)
    ensures KeyedList(now, ConsumedBy(ctx, before, cores, height), k)
    ensures forall l | l in ConsumedBy(ctx, before, cores, height)(k) :: l.box.Karma?
  {
    var ls := ConsumedBy(ctx, before, cores, height)(k);
    assert ls == [] || ls == Projected(ctx, before.boxes, cores, k);
    forall l | l in ls ensures l.box.Karma? && KeyOf(l.box) == k {
      assert IsKarmaOf(now, k, l);
    }
  }

  /** The owner's marked box that is neither spent nor charged, where there is one. */
  lemma IncomeBoxIs(ctx: Ctx, boxes: Boxes, owner: Key, spent: set<BoxId>)
    ensures var base := IncomeBox(ctx, boxes, owner, spent);
      && (base.Some? ==> IsKarmaOf(boxes, owner, base.value) && base.value.box.income && base.value.id !in spent)
      && (base.None? ==> forall id | id in boxes && boxes[id].Karma? && boxes[id].owner == owner && boxes[id].income ::
         id in spent)
  {
    KarmaBoxesHold(ctx, boxes, owner);
    var ls := KarmaBoxes(ctx, boxes, owner);
    if IncomeBox(ctx, boxes, owner, spent).None? {
      forall id | id in boxes && boxes[id].Karma? && boxes[id].owner == owner && boxes[id].income ensures id in spent {
        assert IsKarmaOf(boxes, owner, Live(id, boxes[id]));
        assert Live(id, boxes[id]) in Marked(ls);
      }
    }
  }

  lemma BasesAreLive(ctx: Ctx, boxes: Boxes, es: seq<Earning>, spent: set<BoxId>, owners: seq<Key>)
    requires Distinct(owners)
    ensures var ls := BaseBoxes(IncomesFor(ctx, boxes, es, spent, owners));
      LiveList(boxes, ls) && forall l | l in ls :: l.box.Karma? && l.id !in spent
  {
    var f := BaseBy(ctx, boxes, spent);
    BasesAreGathered(ctx, boxes, es, spent, owners);
    forall k | k in owners ensures KeyedList(boxes, f, k) {
      IncomeBoxIs(ctx, boxes, k, spent);
    }
    GatherLive(boxes, owners, f);
    forall l | l in Gather(owners, f) ensures l.box.Karma? && l.id !in spent {
      IncomeBoxIs(ctx, boxes, KeyOf(l.box), spent);
    }
  }

  // ---------------------------------------------------------------------------
  // The single boxes
  // ---------------------------------------------------------------------------

  lemma FirstLiveIs(ctx: Ctx, boxes: Boxes, p: Box -> bool)
    ensures var first := FirstLive(ctx, boxes, p);
      && (first.Some? ==> first.value.id in boxes && boxes[first.value.id] == first.value.box && p(first.value.box))
      && (first.None? ==> forall id | id in boxes :: !p(boxes[id]))
  {
    SortedLives(boxes, p, ByRank(ctx));
    var ls := Sorted(LivesWhere(boxes, p), ByRank(ctx));
    if ls == [] {
      forall id | id in boxes ensures !p(boxes[id]) {
        var l := Live(id, boxes[id]);
        assert l in ls <==> p(boxes[id]);
      }
    } else {
      assert ls[0] in ls;
    }
  }

  // ---------------------------------------------------------------------------
  // All the legs
  // ---------------------------------------------------------------------------

  /** Which leg an input belongs to: by its type, and where two legs share one, by where it came from. */
  function KindOf(before: set<BoxId>, charged: set<BoxId>, l: Live): nat {
    match l.box
    case Emission(_, _) => 0
    case Treasury(_, _) => 1
    case BackerPool(_, _, _, _) => 2
    case BackerUnstake(_, _, _, _) => 3
    case LikeAccrual(_, _, _) => if l.id in before then 6 else 4
    case KarmaPrice(_, _) => 5
    case Bond(_, _, _, _) => 7
    case VouchEscrow(_, _, _, _) => 8
    case Vouch(_, _, _, _) => 9
    case Karma(_, _, _, _) => if l.id in charged then 10 else 11
    case KarmaPool(_, _) => 12
    case Fee(_, _) => 13
    case _ => 14
  }

  ghost predicate Kinds(before: set<BoxId>, charged: set<BoxId>, ls: seq<Live>, lo: nat, hi: nat) {
    forall l | l in ls :: lo <= KindOf(before, charged, l) < hi
  }

  ghost predicate LegLive(boxes: Boxes, before: set<BoxId>, charged: set<BoxId>, ls: seq<Live>, lo: nat, hi: nat) {
    LiveList(boxes, ls) && Kinds(before, charged, ls, lo, hi)
  }

  lemma JoinLegs(boxes: Boxes, before: set<BoxId>, charged: set<BoxId>, a: seq<Live>, b: seq<Live>, lo: nat, k: nat,
    hi: nat)
    requires lo <= k <= hi && LegLive(boxes, before, charged, a, lo, k) && LegLive(boxes, before, charged, b, k, hi)
    ensures LegLive(boxes, before, charged, a + b, lo, hi)
  {
    forall x, y | x in a && y in b ensures x.id != y.id {
      assert boxes[x.id] == x.box && boxes[y.id] == y.box;
    }
    JoinLive(boxes, a, b);
  }

  /** A block's derivation over the state its body leaves. */
  ghost predicate Deriving(
    ctx: Ctx, o: Origin, cores: seq<TxCore>, s: State, acc: Acc, height: nat, cap: Captured, body: SettlementBody)
  {
    && ValidCtx(ctx)
    && Ready(ctx, o, cores, s, acc)
    && cap == CapturedOf(ctx, o.start, cores, height)
    && body == BodyOf(cores, acc.rent, body.actors)
  }

  ghost function Charged(cap: Captured): set<BoxId> { IdSet(Consumed(cap.plans)) }

  lemma SingleLegs(ctx: Ctx, boxes: Boxes, before: set<BoxId>, charged: set<BoxId>, height: nat, cap: Captured,
    body: SettlementBody)
    requires ValidCtx(ctx) && SlicesOf(ctx, boxes, cap, height, body).Some?
    ensures var slices := SlicesOf(ctx, boxes, cap, height, body).value;
      && LegLive(boxes, before, charged, [slices.emission], 0, 1)
      && slices.emission.box.Emission?
      && LegLive(boxes, before, charged, TreasuryMove(ctx, boxes, slices.split.treasury, height).consumed, 1, 2)
  {
    FirstLiveIs(ctx, boxes, IsEmission);
    FirstLiveIs(ctx, boxes, IsTreasury);
  }

  lemma ListLeg(before: Boxes, charged: set<BoxId>, boxes: Boxes, ls: seq<Live>, p: Box -> bool, k: nat)
    requires ListLeft(before, boxes, ls, p)
    requires forall l: Live :: p(l.box) && l.id !in before ==> KindOf(before.Keys, charged, l) == k
    ensures LegLive(boxes, before.Keys, charged, ls, k, k + 1)
  {
  }

  lemma BodyLeg(ctx: Ctx, o: Origin, cores: seq<TxCore>, s: State, acc: Acc, charged: set<BoxId>, p: Box -> bool,
    k: nat)
    requires Ready(ctx, o, cores, s, acc)
    requires forall b :: p(b) ==> !UserSpendable(b)
    requires forall l: Live :: p(l.box) && l.id !in o.start.boxes ==> KindOf(o.start.boxes.Keys, charged, l) == k
    ensures LegLive(s.boxes, o.start.boxes.Keys, charged, BodyListed(cores, p), k, k + 1)
  {
    BodyListIsLive(ctx, o, cores, s, acc, p);
    ListLeg(o.start.boxes, charged, s.boxes, BodyListed(cores, p), p, k);
  }

  lemma BodyLegs(ctx: Ctx, o: Origin, cores: seq<TxCore>, s: State, acc: Acc, charged: set<BoxId>)
    requires Ready(ctx, o, cores, s, acc)
    ensures LegLive(s.boxes, o.start.boxes.Keys, charged, BodyListed(cores, IsUnstake), 3, 4)
    ensures LegLive(s.boxes, o.start.boxes.Keys, charged, BodyListed(cores, IsPrice), 5, 6)
    ensures LegLive(s.boxes, o.start.boxes.Keys, charged, BodyListed(cores, IsFee), 13, 14)
  {
    BodyLeg(ctx, o, cores, s, acc, charged, IsUnstake, 3);
    BodyLeg(ctx, o, cores, s, acc, charged, IsPrice, 5);
    BodyLeg(ctx, o, cores, s, acc, charged, IsFee, 13);
  }

  /** The captured pool survives the body. */
  lemma PoolStays(ctx: Ctx, o: Origin, cores: seq<TxCore>, s: State, acc: Acc)
    requires Ready(ctx, o, cores, s, acc)
    ensures var pool := FirstLive(ctx, o.start.boxes, IsBackerPool);
      pool.Some? ==> pool.value.id in s.boxes && s.boxes[pool.value.id] == pool.value.box && pool.value.box.BackerPool?
  {
    FirstLiveIs(ctx, o.start.boxes, IsBackerPool);
    var pool := FirstLive(ctx, o.start.boxes, IsBackerPool);
    if pool.Some? {
      UnspendableStays(ctx, o, cores, s, acc, pool.value.id);
    }
  }

  lemma BackerLegLive(boxes: Boxes, before: set<BoxId>, charged: set<BoxId>, backer: Backer, unstakes: seq<Live>,
    height: nat)
    requires BackerMove(backer, unstakes, height).Some?
    requires LegLive(boxes, before, charged, unstakes, 3, 4)
    requires backer.Active? ==>
      backer.pool.id in boxes && boxes[backer.pool.id] == backer.pool.box && backer.pool.box.BackerPool?
    ensures LegLive(boxes, before, charged, BackerMove(backer, unstakes, height).value.consumed, 2, 4)
  {
    if backer.Active? {
      ListingIsLive(boxes, backer.pool);
      JoinLegs(boxes, before, charged, [backer.pool], unstakes, 2, 3, 4);
    }
  }

  lemma CarryLeg(ctx: Ctx, before: Boxes, charged: set<BoxId>, boxes: Boxes, markers: seq<Live>)
    requires ListLeft(before, boxes, markers, IsAccrual)
    ensures LegLive(boxes, before.Keys, charged, CarriedBoxes(LikePayouts(ctx, boxes, markers)), 6, 7)
  {
    var ls := CarriedBoxes(LikePayouts(ctx, boxes, markers));
    AscendingLists(Authors(markers));
    CarriedAreLive(ctx, boxes, markers, Ascending(Authors(markers)));
    forall l | l in ls ensures KindOf(before.Keys, charged, l) == 6 {
      assert l in markers ==> l.id in IdSet(markers);
    }
  }

  lemma BondsAreBonds(ctx: Ctx, s: State, maxInvitedAt: int)
    ensures LiveList(s.boxes, BondsInvitedAt(ctx, s, maxInvitedAt))
    ensures forall l | l in BondsInvitedAt(ctx, s, maxInvitedAt) :: l.box.Bond?
  {
    BondsAreLive(ctx, s, maxInvitedAt);
  }

  lemma BondLeg(ctx: Ctx, s: State, before: set<BoxId>, charged: set<BoxId>, height: nat)
    ensures LegLive(s.boxes, before, charged, BondsSettlingAt(ctx, s, height), 7, 8)
  {
    if WindowStart(ctx, height) > 0 {
      BondsAreBonds(ctx, s, WindowStart(ctx, height));
    }
  }

  lemma EscrowsHold(ctx: Ctx, boxes: Boxes, height: nat)
    ensures LiveList(boxes, EscrowsReleasableAt(ctx, boxes, height))
    ensures forall l | l in EscrowsReleasableAt(ctx, boxes, height) :: l.box.VouchEscrow?
  {
    var all := Sorted(LivesWhere(boxes, ReleasableBy(height)), ByRelease(ctx));
    SortedLives(boxes, ReleasableBy(height), ByRelease(ctx));
    TakenLives(boxes, all, MAX_ESCROW_RETURNS_PER_BLOCK);
  }

  lemma LapsesHold(s: State)
    ensures LiveList(s.boxes, LapsedVouches(s))
    ensures forall l | l in LapsedVouches(s) :: l.box.Vouch?
  {
    var all := Sorted(LivesWhere(s.boxes, LapsedIn(s.records)), ByPair());
    SortedLives(s.boxes, LapsedIn(s.records), ByPair());
    TakenLives(s.boxes, all, MAX_LAPSE_WITHDRAWALS_PER_BLOCK);
  }

  lemma OneKind(boxes: Boxes, before: set<BoxId>, charged: set<BoxId>, ls: seq<Live>, k: nat)
    requires LiveList(boxes, ls)
    requires (k == 8 && forall l | l in ls :: l.box.VouchEscrow?) || (k == 9 && forall l | l in ls :: l.box.Vouch?)
    ensures LegLive(boxes, before, charged, ls, k, k + 1)
  {
  }

  lemma EscrowLeg(ctx: Ctx, o: Origin, cores: seq<TxCore>, s: State, acc: Acc, charged: set<BoxId>, height: nat)
    requires Ready(ctx, o, cores, s, acc)
    ensures LegLive(s.boxes, o.start.boxes.Keys, charged, EscrowsReleasableAt(ctx, o.start.boxes, height), 8, 9)
  {
    EscrowsStay(ctx, o, cores, s, acc, height);
    EscrowsHold(ctx, o.start.boxes, height);
    OneKind(s.boxes, o.start.boxes.Keys, charged, EscrowsReleasableAt(ctx, o.start.boxes, height), 8);
  }

  lemma EscrowsStay(ctx: Ctx, o: Origin, cores: seq<TxCore>, s: State, acc: Acc, height: nat)
    requires Ready(ctx, o, cores, s, acc)
    ensures LiveList(s.boxes, EscrowsReleasableAt(ctx, o.start.boxes, height))
  {
    EscrowsHold(ctx, o.start.boxes, height);
    SurvivingList(ctx, o, cores, s, acc, EscrowsReleasableAt(ctx, o.start.boxes, height));
  }

  lemma LapseLeg(ctx: Ctx, o: Origin, cores: seq<TxCore>, s: State, acc: Acc, charged: set<BoxId>)
    requires Ready(ctx, o, cores, s, acc)
    ensures LegLive(s.boxes, o.start.boxes.Keys, charged, LessSpent(LapsedVouches(o.start), InputsOf(cores)), 9, 10)
  {
    LapsesStay(ctx, o, cores, s, acc);
    LapsesLeft(o.start, o.inputs);
    OneKind(s.boxes, o.start.boxes.Keys, charged, LessSpent(LapsedVouches(o.start), o.inputs), 9);
  }

  lemma LapsesStay(ctx: Ctx, o: Origin, cores: seq<TxCore>, s: State, acc: Acc)
    requires Ready(ctx, o, cores, s, acc)
    ensures LiveList(s.boxes, LessSpent(LapsedVouches(o.start), o.inputs))
  {
    LapsesLeft(o.start, o.inputs);
    SurvivingList(ctx, o, cores, s, acc, LessSpent(LapsedVouches(o.start), o.inputs));
  }

  lemma LapsesLeft(s: State, spent: set<BoxId>)
    ensures LiveList(s.boxes, LessSpent(LapsedVouches(s), spent))
    ensures forall l | l in LessSpent(LapsedVouches(s), spent) :: l.box.Vouch?
  {
    LapsesHold(s);
    LessSpentDistinct(LapsedVouches(s), spent);
  }

  lemma DecayLeg(ctx: Ctx, before: State, cores: seq<TxCore>, now: Boxes, payees: set<Key>, height: nat)
    requires ValidCtx(ctx)
    requires forall owner :: ProjectionLive(ctx, before.boxes, cores, now, owner)
    ensures var ls := Consumed(DecayPlans(ctx, before, cores, payees, height));
      LegLive(now, before.boxes.Keys, IdSet(ls), ls, 10, 11)
  {
    AscendingLists(SquaredSet(before.boxes, cores, payees));
    ConsumedAreLive(ctx, before, cores, now, Ascending(SquaredSet(before.boxes, cores, payees)), height);
  }

  lemma IncomeLeg(ctx: Ctx, boxes: Boxes, before: set<BoxId>, charged: set<BoxId>, spent: set<BoxId>, es: seq<Earning>)
    requires charged <= spent
    ensures LegLive(boxes, before, charged, BaseBoxes(IncomesFor(ctx, boxes, es, spent, Ascending(Earners(es)))), 11,
      12)
  {
    AscendingLists(Earners(es));
    BasesAreLive(ctx, boxes, es, spent, Ascending(Earners(es)));
  }

  lemma PoolLeg(ctx: Ctx, before: set<BoxId>, charged: set<BoxId>, boxes: Boxes, draw: nat, sink: nat, height: nat)
    requires PoolMove(ctx, boxes, draw, sink, height).Some?
    ensures LegLive(boxes, before, charged, PoolMove(ctx, boxes, draw, sink, height).value.consumed, 12, 13)
  {
    FirstLiveIs(ctx, boxes, IsKarmaPool);
  }

  lemma JoinedLegs(
    boxes: Boxes, before: set<BoxId>, charged: set<BoxId>,
    l0: seq<Live>, l1: seq<Live>, l2: seq<Live>, l4: seq<Live>, l5: seq<Live>, l6: seq<Live>, l7: seq<Live>,
    l8: seq<Live>, l9: seq<Live>, l10: seq<Live>, l11: seq<Live>, l12: seq<Live>, l13: seq<Live>)
    requires LegLive(boxes, before, charged, l0, 0, 1) && LegLive(boxes, before, charged, l1, 1, 2)
    requires LegLive(boxes, before, charged, l2, 2, 4) && LegLive(boxes, before, charged, l4, 4, 5)
    requires LegLive(boxes, before, charged, l5, 5, 6) && LegLive(boxes, before, charged, l6, 6, 7)
    requires LegLive(boxes, before, charged, l7, 7, 8) && LegLive(boxes, before, charged, l8, 8, 9)
    requires LegLive(boxes, before, charged, l9, 9, 10) && LegLive(boxes, before, charged, l10, 10, 11)
    requires LegLive(boxes, before, charged, l11, 11, 12) && LegLive(boxes, before, charged, l12, 12, 13)
    requires LegLive(boxes, before, charged, l13, 13, 14)
    ensures LegLive(boxes, before, charged, l0 + l1 + l2 + l4 + l5 + l6 + l7 + l8 + l9 + l10 + l11 + l12 + l13, 0, 14)
  {
    JoinLegs(boxes, before, charged, l0, l1, 0, 1, 2);
    JoinLegs(boxes, before, charged, l0 + l1, l2, 0, 2, 4);
    JoinLegs(boxes, before, charged, l0 + l1 + l2, l4, 0, 4, 5);
    JoinLegs(boxes, before, charged, l0 + l1 + l2 + l4, l5, 0, 5, 6);
    JoinLegs(boxes, before, charged, l0 + l1 + l2 + l4 + l5, l6, 0, 6, 7);
    JoinLegs(boxes, before, charged, l0 + l1 + l2 + l4 + l5 + l6, l7, 0, 7, 8);
    JoinLegs(boxes, before, charged, l0 + l1 + l2 + l4 + l5 + l6 + l7, l8, 0, 8, 9);
    JoinLegs(boxes, before, charged, l0 + l1 + l2 + l4 + l5 + l6 + l7 + l8, l9, 0, 9, 10);
    JoinLegs(boxes, before, charged, l0 + l1 + l2 + l4 + l5 + l6 + l7 + l8 + l9, l10, 0, 10, 11);
    JoinLegs(boxes, before, charged, l0 + l1 + l2 + l4 + l5 + l6 + l7 + l8 + l9 + l10, l11, 0, 11, 12);
    JoinLegs(boxes, before, charged, l0 + l1 + l2 + l4 + l5 + l6 + l7 + l8 + l9 + l10 + l11, l12, 0, 12, 13);
    JoinLegs(boxes, before, charged, l0 + l1 + l2 + l4 + l5 + l6 + l7 + l8 + l9 + l10 + l11 + l12, l13, 0, 13, 14);
  }

  lemma BackerIn(ctx: Ctx, o: Origin, cores: seq<TxCore>, s: State, acc: Acc, height: nat, cap: Captured,
    body: SettlementBody)
    requires Deriving(ctx, o, cores, s, acc, height, cap, body)
    requires SlicesOf(ctx, s.boxes, cap, height, body).Some?
    requires BackerMove(SlicesOf(ctx, s.boxes, cap, height, body).value.backer, body.unstakes, height).Some?
    ensures LegLive(s.boxes, o.start.boxes.Keys, Charged(cap),
      BackerMove(SlicesOf(ctx, s.boxes, cap, height, body).value.backer, body.unstakes, height).value.consumed, 2, 4)
  {
    var backer := SlicesOf(ctx, s.boxes, cap, height, body).value.backer;
    BodyLegs(ctx, o, cores, s, acc, Charged(cap));
    PoolStays(ctx, o, cores, s, acc);
    PoolIsCaptured(ctx, s.boxes, cap, height, body);
    BackerLegLive(s.boxes, o.start.boxes.Keys, Charged(cap), backer, body.unstakes, height);
  }

  lemma PoolIsCaptured(ctx: Ctx, boxes: Boxes, cap: Captured, height: nat, body: SettlementBody)
    requires ValidCtx(ctx) && SlicesOf(ctx, boxes, cap, height, body).Some?
    ensures var backer := SlicesOf(ctx, boxes, cap, height, body).value.backer;
      backer.Active? ==> cap.backerPool == Some(backer.pool)
  {
  }

  lemma LikeLegs(ctx: Ctx, o: Origin, cores: seq<TxCore>, s: State, acc: Acc, charged: set<BoxId>)
    requires Ready(ctx, o, cores, s, acc)
    ensures LegLive(s.boxes, o.start.boxes.Keys, charged, BodyListed(cores, IsAccrual), 4, 5)
    ensures LegLive(s.boxes, o.start.boxes.Keys, charged,
      CarriedBoxes(LikePayouts(ctx, s.boxes, BodyListed(cores, IsAccrual))), 6, 7)
  {
    BodyListIsLive(ctx, o, cores, s, acc, IsAccrual);
    MarkerLegs(ctx, o.start.boxes, charged, s.boxes, BodyListed(cores, IsAccrual));
  }

  lemma MarkerLegs(ctx: Ctx, before: Boxes, charged: set<BoxId>, boxes: Boxes, markers: seq<Live>)
    requires ListLeft(before, boxes, markers, IsAccrual)
    ensures LegLive(boxes, before.Keys, charged, markers, 4, 5)
    ensures LegLive(boxes, before.Keys, charged, CarriedBoxes(LikePayouts(ctx, boxes, markers)), 6, 7)
  {
    ListLeg(before, charged, boxes, markers, IsAccrual, 4);
    CarryLeg(ctx, before, charged, boxes, markers);
  }

  lemma KarmaLegs(ctx: Ctx, o: Origin, cores: seq<TxCore>, s: State, acc: Acc, height: nat, cap: Captured,
    body: SettlementBody)
    requires Deriving(ctx, o, cores, s, acc, height, cap, body)
    ensures LegLive(s.boxes, o.start.boxes.Keys, Charged(cap), Consumed(cap.plans), 10, 11)
    ensures LegLive(s.boxes, o.start.boxes.Keys, Charged(cap), BaseBoxes(LegsOf(ctx, s, cap, height, body).incomes),
      11, 12)
  {
    AllProjected(ctx, o, cores, s, acc);
    DecayLeg(ctx, o.start, cores, s.boxes, PayeesOf(ctx, o.start, cores, height), height);
    IncomeLeg(ctx, s.boxes, o.start.boxes.Keys, Charged(cap), cap.spent + Charged(cap),
        LegsOf(ctx, s, cap, height, body).earnings);
  }

  /** Over the state a body leaves, the settlement's inputs are all live and none is named twice. */
  lemma DerivedInputsAreLive(ctx: Ctx, o: Origin, cores: seq<TxCore>, s: State, acc: Acc, height: nat, cap: Captured,
    body: SettlementBody)
    requires Deriving(ctx, o, cores, s, acc, height, cap, body)
    ensures var d := Derive(ctx, s, cap, height, body);
      d.Some? ==> LegLive(s.boxes, o.start.boxes.Keys, Charged(cap), d.value.inputs, 0, 14)
  {
    var d := Derive(ctx, s, cap, height, body);
    if d.Some? {
      var slices := SlicesOf(ctx, s.boxes, cap, height, body).value;
      var legs := LegsOf(ctx, s, cap, height, body);
      var pool := PoolMove(ctx, s.boxes, PoolDraw(body), PoolSink(s.records, cap, body, legs), height).value;
      var backer := BackerMove(slices.backer, body.unstakes, height).value;
      var before, charged := o.start.boxes.Keys, Charged(cap);
      SingleLegs(ctx, s.boxes, before, charged, height, cap, body);
      BackerIn(ctx, o, cores, s, acc, height, cap, body);
      BodyLegs(ctx, o, cores, s, acc, charged);
      LikeLegs(ctx, o, cores, s, acc, charged);
      KarmaLegs(ctx, o, cores, s, acc, height, cap, body);
      BondLeg(ctx, s, before, charged, height);
      EscrowLeg(ctx, o, cores, s, acc, charged, height);
      LapseLeg(ctx, o, cores, s, acc, charged);
      PoolLeg(ctx, before, charged, s.boxes, PoolDraw(body), PoolSink(s.records, cap, body, legs), height);
      JoinedLegs(s.boxes, before, charged, [slices.emission],
        TreasuryMove(ctx, s.boxes, slices.split.treasury, height).consumed, backer.consumed, body.markers,
        body.prices, CarriedBoxes(legs.payouts), legs.bonds, cap.escrows, cap.lapsed, Consumed(cap.plans),
        BaseBoxes(legs.incomes), pool.consumed, body.feeBoxes);
    }
  }
}
