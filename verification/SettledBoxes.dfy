/** The boxes once the settlement has applied. */
module SettledBoxes {
  import opened Wrappers
  import opened Sums
  import opened Orders
  import opened Ledger
  import opened Engine
  import opened Body
  import opened Coinbase
  import opened Queries
  import opened Decay
  import opened Settlement
  import opened Blocks
  import opened Applying
  import opened Lawful
  import opened Invariant
  import opened BodyRun
  import opened BodyKeeps
  import opened BodyOutcome
  import opened AfterBody
  import opened SettleInputs
  import opened SettleSums
  import opened SettleBalance
  import opened SettleShape
  import opened SettlePlaces

  // ---------------------------------------------------------------------------
  // Who the outputs name
  // ---------------------------------------------------------------------------

  lemma BondIsInvite(ctx: Ctx, o: Origin, cores: seq<TxCore>, s: State, acc: Acc, l: Live)
    requires Ready(ctx, o, cores, s, acc) && l in BodyListed(cores, IsBond)
    ensures l.box.Bond? && CreatesBond(cores, l.id, l.box.inviteePublicKey)
    ensures l.box.inviteePublicKey in acc.invited && l.box.inviteePublicKey !in o.start.records
  {
    BodyListedHolds(cores, IsBond);
    assert ListedIn(cores, IsBond, l);
    assert CreatesBond(cores, l.id, l.box.inviteePublicKey);
  }

  lemma InviteesAreFresh(ctx: Ctx, o: Origin, cores: seq<TxCore>, s: State, acc: Acc)
    requires Ready(ctx, o, cores, s, acc)
    ensures FreshInvitees(o.start.records.Keys, BodyListed(cores, IsBond))
  {
    var bonds := BodyListed(cores, IsBond);
    forall l | l in bonds ensures InviteeOf(l.box) !in o.start.records.Keys {
      BondIsInvite(ctx, o, cores, s, acc, l);
    }
    OneBondEach(ctx, o, cores, s, acc);
  }

  lemma OneBondEach(ctx: Ctx, o: Origin, cores: seq<TxCore>, s: State, acc: Acc)
    requires Ready(ctx, o, cores, s, acc)
    ensures var bonds := BodyListed(cores, IsBond);
      forall i, j | 0 <= i < j < |bonds| :: InviteeOf(bonds[i].box) != InviteeOf(bonds[j].box)
  {
    var bonds := BodyListed(cores, IsBond);
    BodyListedDistinct(cores, IsBond);
    forall i, j | 0 <= i < j < |bonds| ensures InviteeOf(bonds[i].box) != InviteeOf(bonds[j].box) {
      SameInviteeSameBond(ctx, o, cores, s, acc, bonds[i], bonds[j]);
      assert Ids(bonds)[i] != Ids(bonds)[j];
    }
  }

  lemma SameInviteeSameBond(ctx: Ctx, o: Origin, cores: seq<TxCore>, s: State, acc: Acc, l: Live, m: Live)
    requires Ready(ctx, o, cores, s, acc) && l in BodyListed(cores, IsBond) && m in BodyListed(cores, IsBond)
    requires l.id != m.id
    ensures InviteeOf(l.box) != InviteeOf(m.box)
  {
    BondIsInvite(ctx, o, cores, s, acc, l);
    BondIsInvite(ctx, o, cores, s, acc, m);
  }

  lemma KarmaOwnerKnown(ctx: Ctx, o: Origin, cores: seq<TxCore>, s: State, acc: Acc, id: BoxId)
    requires Ready(ctx, o, cores, s, acc) && id in s.boxes && s.boxes[id].Karma?
    ensures s.boxes[id].owner in o.start.records
  {
    assert MidRegistered(s.boxes[id], s.records, o.start.posts);
  }

  lemma GrantsCleared(ctx: Ctx, o: Origin, cores: seq<TxCore>, s: State, acc: Acc, height: nat)
    requires Ready(ctx, o, cores, s, acc)
    ensures AllCleared(s.boxes, {}, Grants(height, BodyListed(cores, IsBond)))
  {
    InviteesAreFresh(ctx, o, cores, s, acc);
    GrantsOut(o.start.records.Keys, height, BodyListed(cores, IsBond));
    forall b | b in Grants(height, BodyListed(cores, IsBond)) && SlotOf(b).Some?
      ensures Cleared(s.boxes, {}, SlotOf(b).value)
    {
      GrantClears(ctx, o, cores, s, acc, height, b);
    }
  }

  lemma GrantClears(ctx: Ctx, o: Origin, cores: seq<TxCore>, s: State, acc: Acc, height: nat, b: Box)
    requires Ready(ctx, o, cores, s, acc)
    requires OutLeg(o.start.records.Keys, [b], 4, 5)
    ensures SlotOf(b).Some? ==> Cleared(s.boxes, {}, SlotOf(b).value)
  {
    assert b in [b] && b.Karma? && !b.income && b.owner !in o.start.records;
    forall id | id in s.boxes ensures SlotOf(s.boxes[id]) != SlotOf(b) {
      if s.boxes[id].Karma? {
        KarmaOwnerKnown(ctx, o, cores, s, acc, id);
      }
    }
  }

  lemma BurnersKnown(ctx: Ctx, o: Origin, cores: seq<TxCore>, s: State, acc: Acc, owners: seq<Key>, height: int)
    requires ValidCtx(ctx) && Ready(ctx, o, cores, s, acc)
    ensures PlanOwnersKnown(o.start.records.Keys, PlansFor(ctx, o.start, cores, owners, height))
  {
    forall plan | plan in PlansFor(ctx, o.start, cores, owners, height) && plan.burn > 0
      ensures plan.owner in o.start.records.Keys
    {
      BurnTakesAll(ctx, o.start, cores, owners, height, plan);
      ProjectedIsLive(ctx, o, cores, s, acc, plan.owner);
      var l := plan.consumed[0];
      assert IsKarmaOf(s.boxes, plan.owner, l);
      KarmaOwnerKnown(ctx, o, cores, s, acc, l.id);
    }
  }

  // ---------------------------------------------------------------------------
  // The outputs, leg by leg
  // ---------------------------------------------------------------------------

  /** A leg's outputs: in their own places, and every place cleared. */
  ghost predicate Placed(known: set<Key>, boxes: Boxes, taken: set<BoxId>, bs: seq<Box>, lo: nat, hi: nat) {
    OutLeg(known, bs, lo, hi) && AllCleared(boxes, taken, bs)
  }

  lemma MovesPlaced(
    ctx: Ctx, known: set<Key>, boxes: Boxes, markers: set<BoxId>, taken: set<BoxId>, p: Box -> bool, b: Box, k: nat)
    requires Apart(boxes, markers) && SlotOf(b) == Some(The(k)) && ClassOf(known, b) == k
    requires forall c :: p(c) <==> SlotOf(c) == Some(The(k))
    requires forall id | id in markers && id in boxes :: !p(boxes[id])
    requires IdSet(Listing(FirstLive(ctx, boxes, p))) <= taken
    ensures Placed(known, boxes, taken, [b], k, k + 1)
  {
    OneTypeClears(ctx, boxes, markers, p, The(k));
  }

  lemma EmissionPlaced(ctx: Ctx, known: set<Key>, boxes: Boxes, markers: set<BoxId>, emission: Live, b: Box)
    requires Apart(boxes, markers) && b.Emission?
    requires forall id | id in markers && id in boxes :: boxes[id].LikeAccrual?
    requires FirstLive(ctx, boxes, IsEmission) == Some(emission)
    ensures Placed(known, boxes, IdSet([emission]), [b], 0, 1)
  {
    assert Listing(Some(emission)) == [emission];
    MovesPlaced(ctx, known, boxes, markers, IdSet([emission]), IsEmission, b, 0);
  }

  lemma TreasuryPlaced(ctx: Ctx, known: set<Key>, boxes: Boxes, markers: set<BoxId>, slice: nat, height: nat)
    requires Apart(boxes, markers)
    requires forall id | id in markers && id in boxes :: boxes[id].LikeAccrual?
    ensures var m := TreasuryMove(ctx, boxes, slice, height);
      Placed(known, boxes, IdSet(m.consumed), m.emitted, 1, 2)
  {
    var m := TreasuryMove(ctx, boxes, slice, height);
    if slice > 0 {
      assert m.consumed == Listing(FirstLive(ctx, boxes, IsTreasury)) && m.emitted == [m.emitted[0]];
      MovesPlaced(ctx, known, boxes, markers, IdSet(m.consumed), IsTreasury, m.emitted[0], 1);
    }
  }

  lemma PoolPlaced(ctx: Ctx, known: set<Key>, boxes: Boxes, markers: set<BoxId>, draw: nat, sink: nat, height: nat)
    requires Apart(boxes, markers) && PoolMove(ctx, boxes, draw, sink, height).Some?
    requires forall id | id in markers && id in boxes :: boxes[id].LikeAccrual?
    ensures var m := PoolMove(ctx, boxes, draw, sink, height).value;
      Placed(known, boxes, IdSet(m.consumed), m.emitted, 3, 4)
  {
    var m := PoolMove(ctx, boxes, draw, sink, height).value;
    if draw != 0 || sink != 0 {
      assert m.consumed == Listing(FirstLive(ctx, boxes, IsKarmaPool)) && m.emitted == [m.emitted[0]];
      MovesPlaced(ctx, known, boxes, markers, IdSet(m.consumed), IsKarmaPool, m.emitted[0], 3);
    }
  }

  lemma BackerPlaced(known: set<Key>, boxes: Boxes, markers: set<BoxId>, backer: Backer, unstakes: seq<Live>,
    height: nat)
    requires Apart(boxes, markers) && BackerMove(backer, unstakes, height).Some?
    requires forall id | id in markers && id in boxes :: boxes[id].LikeAccrual?
    requires backer.Active? ==>
      backer.pool.id in boxes && boxes[backer.pool.id] == backer.pool.box && backer.pool.box.BackerPool?
    ensures var m := BackerMove(backer, unstakes, height).value;
      Placed(known, boxes, IdSet(m.consumed), m.emitted, 2, 3)
  {
    var m := BackerMove(backer, unstakes, height).value;
    if backer.Active? {
      OneClears(boxes, markers, backer.pool, The(2));
      assert backer.pool in m.consumed;
      forall id | id in boxes && SlotOf(boxes[id]) == Some(The(2)) ensures id in IdSet(m.consumed) {
        assert id in {backer.pool.id} + markers;
      }
    }
  }

  lemma PlacelessPlaced(known: set<Key>, boxes: Boxes, bs: seq<Box>, k: nat)
    requires forall b | b in bs :: SlotOf(b).None? && ClassOf(known, b) == k
    ensures Placed(known, boxes, {}, bs, k, k + 1)
  {
    PlacelessOut(known, bs, k);
  }

  lemma JoinPlaced(
    known: set<Key>, boxes: Boxes, ta: set<BoxId>, tb: set<BoxId>, a: seq<Box>, b: seq<Box>, lo: nat, k: nat, hi: nat)
    requires lo <= k <= hi && Placed(known, boxes, ta, a, lo, k) && Placed(known, boxes, tb, b, k, hi)
    ensures Placed(known, boxes, ta + tb, a + b, lo, hi)
  {
    JoinOut(known, a, b, lo, k, hi);
    TakenMore(boxes, ta, ta + tb, a);
    TakenMore(boxes, tb, ta + tb, b);
    forall x | x in a + b && SlotOf(x).Some? ensures Cleared(boxes, ta + tb, SlotOf(x).value) {
      assert x in a || x in b;
    }
  }

  lemma JoinedPlaced(
    known: set<Key>, boxes: Boxes, taken: set<BoxId>,
    o0: seq<Box>, o1: seq<Box>, o2: seq<Box>, o3: seq<Box>, o4: seq<Box>, o5: seq<Box>, o6: seq<Box>,
    o7: seq<Box>, o8: seq<Box>, o9: seq<Box>)
    requires Placed(known, boxes, taken, o0, 0, 1) && Placed(known, boxes, taken, o1, 1, 2)
    requires Placed(known, boxes, taken, o2, 2, 3) && Placed(known, boxes, taken, o3, 3, 4)
    requires Placed(known, boxes, taken, o4, 4, 5) && Placed(known, boxes, taken, o5, 5, 6)
    requires Placed(known, boxes, taken, o6, 6, 7) && Placed(known, boxes, taken, o7, 7, 8)
    requires Placed(known, boxes, taken, o8, 8, 9) && Placed(known, boxes, taken, o9, 9, 10)
    ensures Placed(known, boxes, taken, o0 + o1 + o2 + o3 + o4 + o5 + o6 + o7 + o8 + o9, 0, 10)
  {
    assert taken + taken == taken;
    JoinPlaced(known, boxes, taken, taken, o0, o1, 0, 1, 2);
    JoinPlaced(known, boxes, taken, taken, o0 + o1, o2, 0, 2, 3);
    JoinPlaced(known, boxes, taken, taken, o0 + o1 + o2, o3, 0, 3, 4);
    JoinPlaced(known, boxes, taken, taken, o0 + o1 + o2 + o3, o4, 0, 4, 5);
    JoinPlaced(known, boxes, taken, taken, o0 + o1 + o2 + o3 + o4, o5, 0, 5, 6);
    JoinPlaced(known, boxes, taken, taken, o0 + o1 + o2 + o3 + o4 + o5, o6, 0, 6, 7);
    JoinPlaced(known, boxes, taken, taken, o0 + o1 + o2 + o3 + o4 + o5 + o6, o7, 0, 7, 8);
    JoinPlaced(known, boxes, taken, taken, o0 + o1 + o2 + o3 + o4 + o5 + o6 + o7, o8, 0, 8, 9);
    JoinPlaced(known, boxes, taken, taken, o0 + o1 + o2 + o3 + o4 + o5 + o6 + o7 + o8, o9, 0, 9, 10);
  }

  lemma MorePlaced(known: set<Key>, boxes: Boxes, some: set<BoxId>, more: set<BoxId>, bs: seq<Box>, lo: nat, hi: nat)
    requires some <= more && Placed(known, boxes, some, bs, lo, hi)
    ensures Placed(known, boxes, more, bs, lo, hi)
  {
    TakenMore(boxes, some, more, bs);
  }

  // ---------------------------------------------------------------------------
  // All of them
  // ---------------------------------------------------------------------------

  lemma MarkersAre(ctx: Ctx, o: Origin, cores: seq<TxCore>, s: State, acc: Acc)
    requires Ready(ctx, o, cores, s, acc)
    ensures forall id | id in IdSet(BodyListed(cores, IsAccrual)) :: id in s.boxes && s.boxes[id].LikeAccrual?
  {
    BodyListIsLive(ctx, o, cores, s, acc, IsAccrual);
  }

  /** The protocol boxes' successors. */
  lemma ProtocolPlaced(
    ctx: Ctx, o: Origin, cores: seq<TxCore>, s: State, acc: Acc, height: nat, cap: Captured, body: SettlementBody,
    d: Derived, slices: Slices, treasury: Move, backer: Move, legs: Legs, pool: Move)
    requires Deriving(ctx, o, cores, s, acc, height, cap, body)
    requires Parts(ctx, s, cap, height, body, d, slices, treasury, backer, legs, pool)
    ensures Placed(o.start.records.Keys, s.boxes, IdSet([slices.emission]), [Emission(slices.remaining, height)], 0, 1)
    ensures Placed(o.start.records.Keys, s.boxes, IdSet(treasury.consumed), treasury.emitted, 1, 2)
    ensures Placed(o.start.records.Keys, s.boxes, IdSet(backer.consumed), backer.emitted, 2, 3)
    ensures Placed(o.start.records.Keys, s.boxes, IdSet(pool.consumed), pool.emitted, 3, 4)
  {
    var known, markers := o.start.records.Keys, IdSet(BodyListed(cores, IsAccrual));
    BodyLeavesApart(ctx, o, cores, s, acc);
    MarkersAre(ctx, o, cores, s, acc);
    EmissionPlaced(ctx, known, s.boxes, markers, slices.emission, Emission(slices.remaining, height));
    TreasuryPlaced(ctx, known, s.boxes, markers, slices.split.treasury, height);
    PoolStays(ctx, o, cores, s, acc);
    PoolIsCaptured(ctx, s.boxes, cap, height, body);
    BackerPlaced(known, s.boxes, markers, slices.backer, body.unstakes, height);
    PoolPlaced(ctx, known, s.boxes, markers, PoolDraw(body), PoolSink(s.records, cap, body, legs), height);
  }

  lemma GrantsPlaced(ctx: Ctx, o: Origin, cores: seq<TxCore>, s: State, acc: Acc, height: nat)
    requires Ready(ctx, o, cores, s, acc)
    ensures Placed(o.start.records.Keys, s.boxes, {}, Grants(height, BodyListed(cores, IsBond)), 4, 5)
  {
    InviteesAreFresh(ctx, o, cores, s, acc);
    GrantsOut(o.start.records.Keys, height, BodyListed(cores, IsBond));
    GrantsCleared(ctx, o, cores, s, acc, height);
  }

  lemma CarriesPlaced(ctx: Ctx, o: Origin, cores: seq<TxCore>, s: State, acc: Acc, height: nat)
    requires Ready(ctx, o, cores, s, acc)
    ensures var markers := BodyListed(cores, IsAccrual);
      var ps := LikePayouts(ctx, s.boxes, markers);
      Placed(o.start.records.Keys, s.boxes, IdSet(CarriedBoxes(ps)) + IdSet(markers), CarryOutputs(height, ps), 5, 6)
  {
    var markers := BodyListed(cores, IsAccrual);
    BodyLeavesApart(ctx, o, cores, s, acc);
    AscendingLists(Authors(markers));
    CarriesOut(o.start.records.Keys, ctx, s.boxes, markers, Ascending(Authors(markers)), height);
    CarriesCleared(ctx, s.boxes, markers, Ascending(Authors(markers)), height);
  }

  lemma DecaysPlaced(ctx: Ctx, o: Origin, cores: seq<TxCore>, s: State, acc: Acc, payees: set<Key>, height: nat)
    requires ValidCtx(ctx) && Ready(ctx, o, cores, s, acc)
    ensures var plans := DecayPlans(ctx, o.start, cores, payees, height);
      Placed(o.start.records.Keys, s.boxes, IdSet(Consumed(plans)), DecayOutputs(height, plans), 7, 8)
  {
    var owners := Ascending(SquaredSet(o.start.boxes, cores, payees));
    AscendingLists(SquaredSet(o.start.boxes, cores, payees));
    BurnersKnown(ctx, o, cores, s, acc, owners, height);
    DecaysOut(o.start.records.Keys, ctx, o.start, cores, owners, height);
    AllProjected(ctx, o, cores, s, acc);
    DecaysCleared(ctx, o.start, cores, s.boxes, owners, height);
  }

  /** A marked box that stands after the body is not one the body spent. */
  lemma SpentAreGone(ctx: Ctx, o: Origin, cores: seq<TxCore>, s: State, acc: Acc, taken: set<BoxId>, bs: seq<Box>)
    requires Ready(ctx, o, cores, s, acc) && AllCleared(s.boxes, taken + o.inputs, bs)
    ensures AllCleared(s.boxes, taken, bs)
  {
    forall b | b in bs && SlotOf(b).Some? ensures Cleared(s.boxes, taken, SlotOf(b).value) {
      assert Cleared(s.boxes, taken + o.inputs, SlotOf(b).value);
      forall id | id in s.boxes && SlotOf(s.boxes[id]) == SlotOf(b) ensures id in taken {
        LiveMeans(ctx, o, cores, s, acc, id);
      }
    }
  }

  lemma IncomesPlaced(
    ctx: Ctx, o: Origin, cores: seq<TxCore>, s: State, acc: Acc, es: seq<Earning>, charged: set<BoxId>, height: nat)
    requires Ready(ctx, o, cores, s, acc)
    ensures var ins := IncomesFor(ctx, s.boxes, es, o.inputs + charged, Ascending(Earners(es)));
      Placed(o.start.records.Keys, s.boxes, IdSet(BaseBoxes(ins)) + charged, IncomeOutputs(height, ins), 8, 9)
  {
    var owners, spent := Ascending(Earners(es)), o.inputs + charged;
    var ins := IncomesFor(ctx, s.boxes, es, spent, owners);
    BodyLeavesApart(ctx, o, cores, s, acc);
    MarkersAre(ctx, o, cores, s, acc);
    AscendingLists(Earners(es));
    IncomesOut(o.start.records.Keys, ctx, s.boxes, es, spent, owners, height);
    IncomesCleared(ctx, s.boxes, BodyListed(cores, IsAccrual), es, spent, owners, height);
    assert IdSet(BaseBoxes(ins)) + spent == IdSet(BaseBoxes(ins)) + charged + o.inputs;
    SpentAreGone(ctx, o, cores, s, acc, IdSet(BaseBoxes(ins)) + charged, IncomeOutputs(height, ins));
  }

  lemma MinerPlaceless(d: Derived, height: nat, tail: seq<Box>)
    requires CoinbaseOk(d, height, tail)
    ensures forall b | b in tail :: b.Credit?
  {
  }

  lemma UserLegsPlaced(
    ctx: Ctx, o: Origin, cores: seq<TxCore>, s: State, acc: Acc, height: nat, cap: Captured, body: SettlementBody,
    legs: Legs)
    requires Deriving(ctx, o, cores, s, acc, height, cap, body) && legs == LegsOf(ctx, s, cap, height, body)
    ensures Placed(o.start.records.Keys, s.boxes, {}, Grants(height, body.bonds), 4, 5)
    ensures Placed(o.start.records.Keys, s.boxes, IdSet(CarriedBoxes(legs.payouts)) + IdSet(body.markers),
      CarryOutputs(height, legs.payouts), 5, 6)
    ensures Placed(o.start.records.Keys, s.boxes, IdSet(Consumed(cap.plans)), DecayOutputs(height, cap.plans), 7, 8)
    ensures Placed(o.start.records.Keys, s.boxes, IdSet(BaseBoxes(legs.incomes)) + IdSet(Consumed(cap.plans)),
      IncomeOutputs(height, legs.incomes), 8, 9)
  {
    GrantsPlaced(ctx, o, cores, s, acc, height);
    CarriesPlaced(ctx, o, cores, s, acc, height);
    DecaysPlaced(ctx, o, cores, s, acc, PayeesOf(ctx, o.start, cores, height), height);
    IncomesPlaced(ctx, o, cores, s, acc, legs.earnings, IdSet(Consumed(cap.plans)), height);
  }

  lemma QuietLegsPlaced(
    ctx: Ctx, known: set<Key>, boxes: Boxes, height: nat, cap: Captured, body: SettlementBody, d: Derived,
    backer: Backer, tail: seq<Box>)
    requires CoinbaseOk(d, height, tail)
    requires backer.Active? ==> |backer.leg.releases| == |body.unstakes|
    ensures Placed(known, boxes, {}, LapseOutputs(ctx, height, cap.lapsed), 6, 7)
    ensures Placed(known, boxes, {}, ReleaseOutputs(height, body.unstakes, ReleaseFor(backer, body.unstakes)) + tail,
      9, 10)
  {
    LapsesAreEscrows(ctx, height, cap.lapsed);
    PlacelessPlaced(known, boxes, LapseOutputs(ctx, height, cap.lapsed), 6);
    ReleasesAreCredits(height, body.unstakes, ReleaseFor(backer, body.unstakes));
    MinerPlaceless(d, height, tail);
    PlacelessPlaced(known, boxes, ReleaseOutputs(height, body.unstakes, ReleaseFor(backer, body.unstakes)) + tail, 9);
  }

  /** The settlement's outputs and its coinbase each take a place of their own, cleared by its inputs. */
  lemma SettlementPlaced(
    ctx: Ctx, o: Origin, cores: seq<TxCore>, s: State, acc: Acc, height: nat, cap: Captured, body: SettlementBody,
    d: Derived, tail: seq<Box>)
    requires Deriving(ctx, o, cores, s, acc, height, cap, body)
    requires Derive(ctx, s, cap, height, body) == Some(d) && CoinbaseOk(d, height, tail)
    ensures Placed(o.start.records.Keys, s.boxes, IdSet(d.inputs), d.outputs + tail, 0, 10)
  {
    var known := o.start.records.Keys;
    var taken := IdSet(d.inputs);
    var slices, treasury, backer, legs, pool := PartsOf(ctx, s, cap, height, body);
    PartsTaken(ctx, s, cap, height, body, d, slices, treasury, backer, legs, pool);
    ProtocolPlaced(ctx, o, cores, s, acc, height, cap, body, d, slices, treasury, backer, legs, pool);
    UserLegsPlaced(ctx, o, cores, s, acc, height, cap, body, legs);
    QuietLegsPlaced(ctx, known, s.boxes, height, cap, body, d, slices.backer, tail);
    AssembledPlaced(known, s.boxes, taken, ctx, s, height, cap, body, d, slices, treasury, backer, legs, pool, tail);
  }

  lemma AssembledPlaced(
    known: set<Key>, boxes: Boxes, taken: set<BoxId>, ctx: Ctx, s: State, height: nat, cap: Captured,
    body: SettlementBody,
    d: Derived, slices: Slices, treasury: Move, backer: Move, legs: Legs, pool: Move, tail: seq<Box>)
    requires slices.backer.Active? ==> |slices.backer.leg.releases| == |body.unstakes|
    requires d == Assemble(ctx, cap, height, body, slices, treasury, backer, legs, pool)
    requires IdSet([slices.emission]) <= taken && IdSet(treasury.consumed) <= taken && IdSet(backer.consumed) <= taken
    requires IdSet(pool.consumed) <= taken && IdSet(CarriedBoxes(legs.payouts)) + IdSet(body.markers) <= taken
    requires IdSet(Consumed(cap.plans)) <= taken && IdSet(BaseBoxes(legs.incomes)) + IdSet(Consumed(cap.plans)) <= taken
    requires Placed(known, boxes, IdSet([slices.emission]), [Emission(slices.remaining, height)], 0, 1)
    requires Placed(known, boxes, IdSet(treasury.consumed), treasury.emitted, 1, 2)
    requires Placed(known, boxes, IdSet(backer.consumed), backer.emitted, 2, 3)
    requires Placed(known, boxes, IdSet(pool.consumed), pool.emitted, 3, 4)
    requires Placed(known, boxes, {}, Grants(height, body.bonds), 4, 5)
    requires Placed(known, boxes, IdSet(CarriedBoxes(legs.payouts)) + IdSet(body.markers),
      CarryOutputs(height, legs.payouts), 5, 6)
    requires Placed(known, boxes, {}, LapseOutputs(ctx, height, cap.lapsed), 6, 7)
    requires Placed(known, boxes, IdSet(Consumed(cap.plans)), DecayOutputs(height, cap.plans), 7, 8)
    requires Placed(known, boxes, IdSet(BaseBoxes(legs.incomes)) + IdSet(Consumed(cap.plans)),
      IncomeOutputs(height, legs.incomes), 8, 9)
    requires Placed(known, boxes, {}, ReleaseOutputs(height, body.unstakes, ReleaseFor(slices.backer, body.unstakes))
      + tail, 9, 10)
    ensures Placed(known, boxes, taken, d.outputs + tail, 0, 10)
  {
    var emission := [Emission(slices.remaining, height)];
    var releases := ReleaseOutputs(height, body.unstakes, ReleaseFor(slices.backer, body.unstakes));
    MorePlaced(known, boxes, IdSet([slices.emission]), taken, emission, 0, 1);
    MorePlaced(known, boxes, IdSet(treasury.consumed), taken, treasury.emitted, 1, 2);
    MorePlaced(known, boxes, IdSet(backer.consumed), taken, backer.emitted, 2, 3);
    MorePlaced(known, boxes, IdSet(pool.consumed), taken, pool.emitted, 3, 4);
    MorePlaced(known, boxes, {}, taken, Grants(height, body.bonds), 4, 5);
    MorePlaced(known, boxes, IdSet(CarriedBoxes(legs.payouts)) + IdSet(body.markers), taken,
        CarryOutputs(height, legs.payouts), 5, 6);
    MorePlaced(known, boxes, {}, taken, LapseOutputs(ctx, height, cap.lapsed), 6, 7);
    MorePlaced(known, boxes, IdSet(Consumed(cap.plans)), taken, DecayOutputs(height, cap.plans), 7, 8);
    MorePlaced(known, boxes, IdSet(BaseBoxes(legs.incomes)) + IdSet(Consumed(cap.plans)), taken,
        IncomeOutputs(height, legs.incomes), 8, 9);
    MorePlaced(known, boxes, {}, taken, releases + tail, 9, 10);
    JoinedPlaced(known, boxes, taken, emission, treasury.emitted, backer.emitted, pool.emitted,
      Grants(height, body.bonds), CarryOutputs(height, legs.payouts), LapseOutputs(ctx, height, cap.lapsed),
      DecayOutputs(height, cap.plans), IncomeOutputs(height, legs.incomes), releases + tail);
    var front := emission + treasury.emitted + backer.emitted + pool.emitted + Grants(height, body.bonds)
      + CarryOutputs(height, legs.payouts) + LapseOutputs(ctx, height, cap.lapsed) + DecayOutputs(height, cap.plans)
      + IncomeOutputs(height, legs.incomes);
    assert front + (releases + tail) == (front + releases) + tail;
  }

  /** After the settlement no two boxes take one place. */
  lemma SettledApart(
    ctx: Ctx, o: Origin, cores: seq<TxCore>, s: State, acc: Acc, height: nat, cap: Captured, body: SettlementBody,
    d: Derived, core: TxCore, tail: seq<Box>)
    requires Deriving(ctx, o, cores, s, acc, height, cap, body)
    requires Derive(ctx, s, cap, height, body) == Some(d) && CoinbaseOk(d, height, tail)
    requires core.inputs == Ids(d.inputs) && core.outputs == d.outputs + tail
    ensures NoRivals(AfterTx(s.boxes, core))
  {
    SettlementPlaced(ctx, o, cores, s, acc, height, cap, body, d, tail);
    BodyLeavesApart(ctx, o, cores, s, acc);
    InputIds(d.inputs);
    var slices, treasury, backer, legs, pool := PartsOf(ctx, s, cap, height, body);
    PartsTaken(ctx, s, cap, height, body, d, slices, treasury, backer, legs, pool);
    ClearedLeavesNoRivals(s.boxes, core, IdSet(body.markers));
  }
}
