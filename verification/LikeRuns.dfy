/** Over whole runs, what likes pay does not depend on how they are split over blocks. */
module LikeRuns {
  import opened Wrappers
  import opened Sums
  import opened Orders
  import opened Ledger
  import opened Engine
  import opened Body
  import opened Coinbase
  import opened Queries
  import opened Decay
  import opened Settlement
  import opened Blocks
  import opened Applying
  import opened Lawful
  import opened Invariant
  import opened BodyRun
  import opened BodyKeeps
  import opened BodyOutcome
  import opened AfterBody
  import opened SettleInputs
  import opened SettleSums
  import opened SettleBalance
  import opened SettleShape
  import opened SettlePlaces
  import opened SettledBoxes
  import opened SettledState
  import opened SettledBackers
  import opened BlockStep
  import opened Runs
  import opened Producer

  // ---------------------------------------------------------------------------
  // One author, one block
  // ---------------------------------------------------------------------------

  /** What an author's carry box holds; without one, nothing. */
  ghost predicate HoldsCarry(boxes: Boxes, author: Key, value: nat) {
    || (exists id :: id in boxes && boxes[id].LikeAccrual? && boxes[id].author == author && boxes[id].value == value)
    || (value == 0 && forall id | id in boxes :: !(boxes[id].LikeAccrual? && boxes[id].author == author))
  }

  function PooledFrom(ps: seq<Payout>, author: Key): nat {
    if ps == [] then 0 else (if ps[0].author == author then ps[0].pooled else 0) + PooledFrom(ps[1..], author)
  }

  function PaidTo(ps: seq<Payout>, author: Key): nat { Earned(FromLikes(ps), author) }

  /** The whole lots in a total. */
  function Whole(total: nat): nat { total / LIKES_PER_KARMA_PAYOUT }

  lemma {:induction false} AuthorsPayout(ctx: Ctx, boxes: Boxes, markers: seq<Live>, authors: seq<Key>, author: Key)
    requires Distinct(authors)
    ensures var ps := PayoutsFor(ctx, boxes, markers, authors);
      var total := if author in authors then Credited(markers, author)
          + CarriedValue(CarryOf(ctx, boxes, markers, author)) else 0;
      PooledFrom(ps, author) == Whole(total) && PaidTo(ps, author) == Whole(total) * (LIKES_PER_KARMA_PAYOUT - 1)
  {
    if authors != [] {
      var ps := PayoutsFor(ctx, boxes, markers, authors);
      var rest := PayoutsFor(ctx, boxes, markers, authors[1..]);
      assert ps[1..] == rest && FromLikes(ps)[1..] == FromLikes(rest);
      DistinctTail(authors);
      AuthorsPayout(ctx, boxes, markers, authors[1..], author);
    }
  }

  lemma {:induction false} NoMarkersNoCredit(markers: seq<Live>, author: Key)
    requires author !in Authors(markers)
    ensures Credited(markers, author) == 0
  {
    if markers != [] {
      assert markers[0] in markers;
      assert forall m | m in markers[1..] :: m in markers;
      NoMarkersNoCredit(markers[1..], author);
    }
  }

  lemma CarryHeld(ctx: Ctx, boxes: Boxes, markers: seq<Live>, author: Key, value: nat)
    requires NoRivals(boxes) && HoldsCarry(boxes, author, value)
    requires forall id | id in IdSet(markers) :: id !in boxes
    ensures CarriedValue(CarryOf(ctx, boxes, markers, author)) == value
  {
    CarryIs(ctx, boxes, markers, author);
    var carried := CarryOf(ctx, boxes, markers, author);
    if carried.Some? {
      if id :| id in boxes && boxes[id].LikeAccrual? && boxes[id].author == author && boxes[id].value == value {
        assert Rivals(boxes[id], boxes[carried.value.id]);
      }
    }
  }

  lemma SmallCarry(ctx: Ctx, s: State, author: Key, value: nat)
    requires BoxesOk(ctx, s) && HoldsCarry(s.boxes, author, value)
    ensures value < LIKES_PER_KARMA_PAYOUT
  {
    if id :| id in s.boxes && s.boxes[id].LikeAccrual? && s.boxes[id].author == author && s.boxes[id].value == value {
      assert CarrySmall(s.boxes[id]);
    }
  }

  // ---------------------------------------------------------------------------
  // The carry after a block
  // ---------------------------------------------------------------------------

  lemma {:induction false} CarryOutputIs(ctx: Ctx, boxes: Boxes, markers: seq<Live>, authors: seq<Key>, height: nat,
    author: Key)
    requires Distinct(authors)
    ensures var total := Credited(markers, author) + CarriedValue(CarryOf(ctx, boxes, markers, author));
      var outs := CarryOutputs(height, PayoutsFor(ctx, boxes, markers, authors));
      && (author in authors && total % LIKES_PER_KARMA_PAYOUT > 0 ==>
         LikeAccrual(total % LIKES_PER_KARMA_PAYOUT, height, author) in outs)
      && (author !in authors || total % LIKES_PER_KARMA_PAYOUT == 0 ==> forall b | b in outs ::
         !(b.LikeAccrual? && b.author == author))
  {
    if authors != [] {
      var ps := PayoutsFor(ctx, boxes, markers, authors);
      var rest := CarryOutputs(height, PayoutsFor(ctx, boxes, markers, authors[1..]));
      assert ps[1..] == PayoutsFor(ctx, boxes, markers, authors[1..]);
      var first := if ps[0].carry > 0 then [LikeAccrual(ps[0].carry, height, ps[0].author)] else [];
      assert CarryOutputs(height, ps) == first + rest;
      DistinctTail(authors);
      CarryOutputIs(ctx, boxes, markers, authors[1..], height, author);
    }
  }

  /** The outputs' accruals are exactly the like leg's carries. */
  ghost predicate CarriesAre(outputs: seq<Box>, carries: seq<Box>) {
    && (forall b | b in carries :: b in outputs)
    && (forall b | b in outputs && b.LikeAccrual? :: b in carries)
  }

  lemma CarriesAreOut(ctx: Ctx, s: State, cap: Captured, height: nat, body: SettlementBody, d: Derived, tail: seq<Box>)
    requires ValidCtx(ctx) && Derive(ctx, s, cap, height, body) == Some(d) && CoinbaseOk(d, height, tail)
    ensures CarriesAre(d.outputs + tail, CarryOutputs(height, LikePayouts(ctx, s.boxes, body.markers)))
  {
    var slices, treasury, backer, legs, pool := PartsOf(ctx, s, cap, height, body);
    forall b | b in d.outputs + tail && b.LikeAccrual?
        ensures b in CarryOutputs(height, LikePayouts(ctx, s.boxes, body.markers)) {
      OutputOrigin(ctx, s, cap, height, body, d, slices, treasury, backer, legs, pool, tail, b);
    }
    forall b | b in CarryOutputs(height, LikePayouts(ctx, s.boxes, body.markers)) ensures b in d.outputs + tail {
      assert b in d.outputs;
    }
  }

  lemma AuthorsCleared(
    ctx: Ctx, s: State, cap: Captured, height: nat, body: SettlementBody, d: Derived, author: Key)
    requires ValidCtx(ctx) && Derive(ctx, s, cap, height, body) == Some(d)
    requires Apart(s.boxes, IdSet(body.markers)) && author in Authors(body.markers)
    ensures Cleared(s.boxes, IdSet(d.inputs), Carry(author))
  {
    var slices, treasury, backer, legs, pool := PartsOf(ctx, s, cap, height, body);
    PartsTaken(ctx, s, cap, height, body, d, slices, treasury, backer, legs, pool);
    var authors := Ascending(Authors(body.markers));
    AscendingLists(Authors(body.markers));
    assert author in Members(authors);
    CarryClears(ctx, s.boxes, body.markers, authors, author);
    ClearedMore(s.boxes, IdSet(CarriedBoxes(legs.payouts)) + IdSet(body.markers), IdSet(d.inputs), Carry(author));
  }

  lemma ClearedMore(boxes: Boxes, some: set<BoxId>, more: set<BoxId>, slot: Slot)
    requires Cleared(boxes, some, slot) && some <= more
    ensures Cleared(boxes, more, slot)
  {
  }

  /** An author's one carry output, or none. */
  lemma CarryOutFor(ctx: Ctx, boxes: Boxes, markers: seq<Live>, height: nat, author: Key, r: nat)
    requires r == (Credited(markers, author)
      + CarriedValue(CarryOf(ctx, boxes, markers, author))) % LIKES_PER_KARMA_PAYOUT
    ensures var outs := CarryOutputs(height, LikePayouts(ctx, boxes, markers));
      && (author in Authors(markers) && r > 0 ==> LikeAccrual(r, height, author) in outs)
      && (author !in Authors(markers) || r == 0 ==> forall b | b in outs :: !(b.LikeAccrual? && b.author == author))
  {
    var authors := Ascending(Authors(markers));
    AscendingLists(Authors(markers));
    assert author in authors <==> author in Members(authors);
    CarryOutputIs(ctx, boxes, markers, authors, height, author);
  }

  /** What is left over the whole lots. */
  function Rest(total: nat): nat { total % LIKES_PER_KARMA_PAYOUT }

  /** What is left of the markers and the earlier carry. */
  function CarryAfter(markers: seq<Live>, author: Key, value: nat): nat {
    Rest(value + Credited(markers, author))
  }

  ghost predicate CarriesOutRight(outputs: seq<Box>, height: nat, author: Key, credited: bool, r: nat) {
    && (credited && r > 0 ==> LikeAccrual(r, height, author) in outputs)
    && (!credited || r == 0 ==> forall b | b in outputs :: !(b.LikeAccrual? && b.author == author))
  }

  lemma CarryOutIs(ctx: Ctx, boxes: Boxes, markers: seq<Live>, outputs: seq<Box>, height: nat, author: Key, value: nat)
    requires CarriesAre(outputs, CarryOutputs(height, LikePayouts(ctx, boxes, markers)))
    requires CarriedValue(CarryOf(ctx, boxes, markers, author)) == value
    ensures CarriesOutRight(outputs, height, author, author in Authors(markers), CarryAfter(markers, author, value))
  {
    CarryOutFor(ctx, boxes, markers, height, author, CarryAfter(markers, author, value));
  }

  /** A credited author's carry: what is left of the markers and the earlier carry over the whole lots. */
  lemma CreditedFrom(boxes: Boxes, core: TxCore, inputs: seq<Live>, height: nat, author: Key, r: nat)
    requires core.inputs == Ids(inputs) && Cleared(boxes, IdSet(inputs), Carry(author))
    requires CarriesOutRight(core.outputs, height, author, true, r)
    ensures HoldsCarry(AfterTx(boxes, core), author, r)
  {
    if r > 0 {
      var i :| 0 <= i < |core.outputs| && core.outputs[i] == LikeAccrual(r, height, author);
      assert Out(core, i) in OutputsFrom(core, 0) && Out(core, i) in AfterTx(boxes, core);
    } else {
      NothingLeft(boxes, core, inputs, author);
    }
  }

  lemma AuthorsPlaceCleared(
    ctx: Ctx, o: Origin, cores: seq<TxCore>, s: State, acc: Acc, height: nat, cap: Captured, body: SettlementBody,
    d: Derived, author: Key)
    requires Deriving(ctx, o, cores, s, acc, height, cap, body) && Derive(ctx, s, cap, height, body) == Some(d)
    requires author in Authors(body.markers)
    ensures Cleared(s.boxes, IdSet(d.inputs), Carry(author))
  {
    BodyLeavesApart(ctx, o, cores, s, acc);
    AuthorsCleared(ctx, s, cap, height, body, d, author);
  }

  lemma NothingLeft(boxes: Boxes, core: TxCore, inputs: seq<Live>, author: Key)
    requires core.inputs == Ids(inputs) && Cleared(boxes, IdSet(inputs), Carry(author))
    requires forall b | b in core.outputs :: !(b.LikeAccrual? && b.author == author)
    ensures HoldsCarry(AfterTx(boxes, core), author, 0)
  {
    InputIds(inputs);
    AfterTxAll(boxes, core, (b: Box) => !(b.LikeAccrual? && b.author == author));
  }

  lemma NoAccrualInLeg(boxes: Boxes, before: set<BoxId>, charged: set<BoxId>, ls: seq<Live>, lo: nat, hi: nat)
    requires LegLive(boxes, before, charged, ls, lo, hi) && (hi <= 4 || lo >= 7 || (lo == 5 && hi == 6))
    ensures forall l | l in ls :: !l.box.LikeAccrual?
  {
    forall l | l in ls ensures !l.box.LikeAccrual? {
      assert lo <= KindOf(before, charged, l) < hi;
    }
  }

  lemma NoAccrualInBody(ctx: Ctx, o: Origin, cores: seq<TxCore>, s: State, acc: Acc, height: nat, charged: set<BoxId>)
    requires Ready(ctx, o, cores, s, acc)
    ensures forall l | l in BodyListed(cores, IsPrice) :: !l.box.LikeAccrual?
    ensures forall l | l in BodyListed(cores, IsFee) :: !l.box.LikeAccrual?
    ensures forall l | l in BondsSettlingAt(ctx, s, height) :: !l.box.LikeAccrual?
    ensures forall l | l in EscrowsReleasableAt(ctx, o.start.boxes, height) :: !l.box.LikeAccrual?
    ensures forall l | l in LessSpent(LapsedVouches(o.start), InputsOf(cores)) :: !l.box.LikeAccrual?
  {
    var before := o.start.boxes.Keys;
    BodyLegs(ctx, o, cores, s, acc, charged);
    NoAccrualInLeg(s.boxes, before, charged, BodyListed(cores, IsPrice), 5, 6);
    NoAccrualInLeg(s.boxes, before, charged, BodyListed(cores, IsFee), 13, 14);
    BondLeg(ctx, s, before, charged, height);
    NoAccrualInLeg(s.boxes, before, charged, BondsSettlingAt(ctx, s, height), 7, 8);
    EscrowsHold(ctx, o.start.boxes, height);
    LapsesLeft(o.start, o.inputs);
  }

  /** The settlement takes in no accrual but the body's markers and their authors' carries. */
  lemma AccrualsOnlyLikes(
    ctx: Ctx, o: Origin, cores: seq<TxCore>, s: State, acc: Acc, height: nat, cap: Captured, body: SettlementBody,
    d: Derived)
    requires Deriving(ctx, o, cores, s, acc, height, cap, body) && Derive(ctx, s, cap, height, body) == Some(d)
    ensures forall l | l in d.inputs && l.box.LikeAccrual? ::
      l in body.markers || l in CarriedBoxes(LikePayouts(ctx, s.boxes, body.markers))
  {
    var before, charged := o.start.boxes.Keys, Charged(cap);
    var slices, treasury, backer, legs, pool := PartsOf(ctx, s, cap, height, body);
    SingleLegs(ctx, s.boxes, before, charged, height, cap, body);
    NoAccrualInLeg(s.boxes, before, charged, [slices.emission], 0, 1);
    NoAccrualInLeg(s.boxes, before, charged, treasury.consumed, 1, 2);
    BackerIn(ctx, o, cores, s, acc, height, cap, body);
    NoAccrualInLeg(s.boxes, before, charged, backer.consumed, 2, 4);
    NoAccrualInBody(ctx, o, cores, s, acc, height, charged);
    SettleInputs.KarmaLegs(ctx, o, cores, s, acc, height, cap, body);
    NoAccrualInLeg(s.boxes, before, charged, Consumed(cap.plans), 10, 11);
    NoAccrualInLeg(s.boxes, before, charged, BaseBoxes(legs.incomes), 11, 12);
    PoolLeg(ctx, before, charged, s.boxes, PoolDraw(body), PoolSink(s.records, cap, body, legs), height);
    NoAccrualInLeg(s.boxes, before, charged, pool.consumed, 12, 13);
    forall l | l in d.inputs && l.box.LikeAccrual?
      ensures l in body.markers || l in CarriedBoxes(LikePayouts(ctx, s.boxes, body.markers))
    {
      OneOfThirteen([slices.emission], treasury.consumed, backer.consumed, body.markers, body.prices,
        CarriedBoxes(legs.payouts), legs.bonds, cap.escrows, cap.lapsed, Consumed(cap.plans), BaseBoxes(legs.incomes),
        pool.consumed, body.feeBoxes, l);
    }
  }

  lemma CarriedAuthors(ctx: Ctx, boxes: Boxes, markers: seq<Live>, l: Live)
    requires l in CarriedBoxes(LikePayouts(ctx, boxes, markers))
    ensures l.box.LikeAccrual? && l.box.author in Authors(markers)
  {
    var authors := Ascending(Authors(markers));
    AscendingLists(Authors(markers));
    CarriedAreLive(ctx, boxes, markers, authors);
    assert KeyOf(l.box) in Members(authors);
  }

  lemma AuthorsInputsSpared(
    ctx: Ctx, o: Origin, cores: seq<TxCore>, s: State, acc: Acc, height: nat, cap: Captured, body: SettlementBody,
    d: Derived, author: Key)
    requires Deriving(ctx, o, cores, s, acc, height, cap, body) && Derive(ctx, s, cap, height, body) == Some(d)
    requires author !in Authors(body.markers)
    ensures LiveList(s.boxes, d.inputs) && forall l | l in d.inputs :: !(l.box.LikeAccrual? && l.box.author == author)
  {
    DerivedInputsAreLive(ctx, o, cores, s, acc, height, cap, body);
    AccrualsOnlyLikes(ctx, o, cores, s, acc, height, cap, body, d);
    forall l | l in d.inputs && l.box.LikeAccrual? ensures l.box.author != author {
      if l in body.markers {
        assert AuthorOf(l.box) in Authors(body.markers);
      } else {
        CarriedAuthors(ctx, s.boxes, body.markers, l);
      }
    }
  }

  lemma CarryLeft(boxes: Boxes, core: TxCore, inputs: seq<Live>, author: Key, value: nat)
    requires core.inputs == Ids(inputs) && LiveList(boxes, inputs) && FreshFrom(core, 0, boxes.Keys)
    requires forall l | l in inputs :: !(l.box.LikeAccrual? && l.box.author == author)
    requires forall b | b in core.outputs :: !(b.LikeAccrual? && b.author == author)
    requires HoldsCarry(boxes, author, value)
    ensures HoldsCarry(AfterTx(boxes, core), author, value)
  {
    var after := AfterTx(boxes, core);
    InputIds(inputs);
    FreshMeans(boxes, core);
    if id :| id in boxes && boxes[id].LikeAccrual? && boxes[id].author == author && boxes[id].value == value {
      forall l | l in inputs ensures l.id != id {
        assert boxes[l.id] == l.box;
      }
      assert id in after && after[id] == boxes[id];
    } else {
      AfterTxAll(boxes, core, (b: Box) => !(b.LikeAccrual? && b.author == author));
    }
  }

  // ---------------------------------------------------------------------------
  // The carry through a whole block
  // ---------------------------------------------------------------------------

  ghost function MarkersOf(block: Block): seq<Live> { BodyListed(CoresOf(block.queue), IsAccrual) }

  /** What a block's body credits an author with. */
  ghost function CreditedIn(block: Block, author: Key): nat { Credited(MarkersOf(block), author) }

  lemma BodyKeepsCarry(ctx: Ctx, o: Origin, cores: seq<TxCore>, s: State, acc: Acc, author: Key, value: nat)
    requires Ready(ctx, o, cores, s, acc) && HoldsCarry(o.start.boxes, author, value)
    requires author !in Authors(BodyListed(cores, IsAccrual))
    ensures HoldsCarry(s.boxes, author, value)
  {
    BodyListIsLive(ctx, o, cores, s, acc, IsAccrual);
    if id :|
      id in o.start.boxes && o.start.boxes[id].LikeAccrual? && o.start.boxes[id].author == author
      && o.start.boxes[id].value == value
    {
      UnspendableStays(ctx, o, cores, s, acc, id);
    } else {
      forall id | id in s.boxes ensures !(s.boxes[id].LikeAccrual? && s.boxes[id].author == author) {
        AuthorHasNoMarker(ctx, o, cores, s, acc, id, author);
      }
    }
  }

  lemma AuthorHasNoMarker(ctx: Ctx, o: Origin, cores: seq<TxCore>, s: State, acc: Acc, id: BoxId, author: Key)
    requires Ready(ctx, o, cores, s, acc) && ListLeft(o.start.boxes, s.boxes, BodyListed(cores, IsAccrual), IsAccrual)
    requires id in s.boxes && author !in Authors(BodyListed(cores, IsAccrual))
    requires forall j | j in o.start.boxes :: !(o.start.boxes[j].LikeAccrual? && o.start.boxes[j].author == author)
    ensures !(s.boxes[id].LikeAccrual? && s.boxes[id].author == author)
  {
    NewOrOld(ctx, o, cores, s, acc, id);
    var l := Live(id, s.boxes[id]);
    assert l in BodyListed(cores, IsAccrual) ==> AuthorOf(l.box) in Authors(BodyListed(cores, IsAccrual));
  }

  lemma CarryBeforeIs(ctx: Ctx, o: Origin, cores: seq<TxCore>, s: State, acc: Acc, author: Key, value: nat)
    requires Ready(ctx, o, cores, s, acc) && HoldsCarry(o.start.boxes, author, value)
    ensures CarriedValue(CarryOf(ctx, s.boxes, BodyListed(cores, IsAccrual), author)) == value
    ensures CarriedValue(CarryOf(ctx, o.start.boxes, BodyListed(cores, IsAccrual), author)) == value
  {
    var markers := BodyListed(cores, IsAccrual);
    CarryReadSame(ctx, o, cores, s, acc, author);
    MarkersAreNew(ctx, o, cores, s, acc);
    CarryHeld(ctx, o.start.boxes, markers, author, value);
  }

  lemma MarkersAreNew(ctx: Ctx, o: Origin, cores: seq<TxCore>, s: State, acc: Acc)
    requires Ready(ctx, o, cores, s, acc)
    ensures forall id | id in IdSet(BodyListed(cores, IsAccrual)) :: id !in o.start.boxes
  {
    BodyListIsLive(ctx, o, cores, s, acc, IsAccrual);
  }

  /** A block's effect on an author: the whole lots out of the markers and the carry, the rest carried. */
  lemma SettledCarry(
    ctx: Ctx, o: Origin, cores: seq<TxCore>, s: State, acc: Acc, height: nat, cap: Captured, body: SettlementBody,
    d: Derived, core: TxCore, tail: seq<Box>, author: Key, value: nat)
    requires Settling(ctx, o, cores, s, acc, height, cap, body, d, core, tail)
    requires HoldsCarry(o.start.boxes, author, value) && value < LIKES_PER_KARMA_PAYOUT
    ensures HoldsCarry(AfterTx(s.boxes, core), author, CarryAfter(body.markers, author, value))
  {
    CarriesAreOut(ctx, s, cap, height, body, d, tail);
    CarryBeforeIs(ctx, o, cores, s, acc, author, value);
    if author in Authors(body.markers) {
      CreditedCase(ctx, o, cores, s, acc, height, cap, body, d, core, author, value);
    } else {
      UncreditedCase(ctx, o, cores, s, acc, height, cap, body, d, core, tail, author, value);
    }
  }

  lemma CreditedCase(
    ctx: Ctx, o: Origin, cores: seq<TxCore>, s: State, acc: Acc, height: nat, cap: Captured, body: SettlementBody,
    d: Derived, core: TxCore, author: Key, value: nat)
    requires Deriving(ctx, o, cores, s, acc, height, cap, body) && Derive(ctx, s, cap, height, body) == Some(d)
    requires core.inputs == Ids(d.inputs) && author in Authors(body.markers)
    requires CarriesAre(core.outputs, CarryOutputs(height, LikePayouts(ctx, s.boxes, body.markers)))
    requires CarriedValue(CarryOf(ctx, s.boxes, body.markers, author)) == value
    ensures HoldsCarry(AfterTx(s.boxes, core), author, CarryAfter(body.markers, author, value))
  {
    AuthorsPlaceCleared(ctx, o, cores, s, acc, height, cap, body, d, author);
    CreditedSettles(ctx, s.boxes, core, d.inputs, body.markers, height, author, value);
  }

  lemma UncreditedCase(
    ctx: Ctx, o: Origin, cores: seq<TxCore>, s: State, acc: Acc, height: nat, cap: Captured, body: SettlementBody,
    d: Derived, core: TxCore, tail: seq<Box>, author: Key, value: nat)
    requires Settling(ctx, o, cores, s, acc, height, cap, body, d, core, tail)
    requires author !in Authors(body.markers) && HoldsCarry(o.start.boxes, author, value)
      && value < LIKES_PER_KARMA_PAYOUT
    requires CarriesAre(core.outputs, CarryOutputs(height, LikePayouts(ctx, s.boxes, body.markers)))
    requires CarriedValue(CarryOf(ctx, s.boxes, body.markers, author)) == value
    ensures HoldsCarry(AfterTx(s.boxes, core), author, CarryAfter(body.markers, author, value))
  {
    CarrySpared(ctx, o, cores, s, acc, height, cap, body, d, core, tail, author, value);
    UncreditedSettles(ctx, s.boxes, core, d.inputs, body.markers, height, author, value);
  }

  lemma CreditedSettles(
    ctx: Ctx, boxes: Boxes, core: TxCore, inputs: seq<Live>, markers: seq<Live>, height: nat, author: Key, value: nat)
    requires CarriesAre(core.outputs, CarryOutputs(height, LikePayouts(ctx, boxes, markers)))
    requires CarriedValue(CarryOf(ctx, boxes, markers, author)) == value && author in Authors(markers)
    requires core.inputs == Ids(inputs) && Cleared(boxes, IdSet(inputs), Carry(author))
    ensures HoldsCarry(AfterTx(boxes, core), author, CarryAfter(markers, author, value))
  {
    CarryOutIs(ctx, boxes, markers, core.outputs, height, author, value);
    CreditedFrom(boxes, core, inputs, height, author, CarryAfter(markers, author, value));
  }

  lemma UncreditedSettles(
    ctx: Ctx, boxes: Boxes, core: TxCore, inputs: seq<Live>, markers: seq<Live>, height: nat, author: Key, value: nat)
    requires CarriesAre(core.outputs, CarryOutputs(height, LikePayouts(ctx, boxes, markers)))
    requires CarriedValue(CarryOf(ctx, boxes, markers, author)) == value && author !in Authors(markers)
    requires core.inputs == Ids(inputs) && LiveList(boxes, inputs) && FreshFrom(core, 0, boxes.Keys)
    requires forall l | l in inputs :: !(l.box.LikeAccrual? && l.box.author == author)
    requires HoldsCarry(boxes, author, value) && value < LIKES_PER_KARMA_PAYOUT
    ensures HoldsCarry(AfterTx(boxes, core), author, CarryAfter(markers, author, value))
  {
    NoMarkersNoCredit(markers, author);
    CarryOutIs(ctx, boxes, markers, core.outputs, height, author, value);
    CarryLeft(boxes, core, inputs, author, value);
  }

  lemma CarrySpared(
    ctx: Ctx, o: Origin, cores: seq<TxCore>, s: State, acc: Acc, height: nat, cap: Captured, body: SettlementBody,
    d: Derived, core: TxCore, tail: seq<Box>, author: Key, value: nat)
    requires Settling(ctx, o, cores, s, acc, height, cap, body, d, core, tail)
    requires author !in Authors(body.markers) && HoldsCarry(o.start.boxes, author, value)
    ensures LiveList(s.boxes, d.inputs) && FreshFrom(core, 0, s.boxes.Keys) && HoldsCarry(s.boxes, author, value)
    ensures forall l | l in d.inputs :: !(l.box.LikeAccrual? && l.box.author == author)
  {
    SettlementIsNew(ctx, o, cores, s, acc, height, cap, body, d, core, tail);
    AuthorsInputsSpared(ctx, o, cores, s, acc, height, cap, body, d, author);
    BodyKeepsCarry(ctx, o, cores, s, acc, author, value);
  }

  /** A block's effect on an author's carry. */
  lemma BlockCarry(ctx: Ctx, s: State, height: int, applied: set<TxCore>, block: Block, author: Key, value: nat)
    requires ValidCtx(ctx) && Inv(ctx, s, height, applied) && 0 <= height < block.height
    requires ApplyBlock(ctx, s, block).Done? && HoldsCarry(s.boxes, author, value)
    ensures HoldsCarry(ApplyBlock(ctx, s, block).value.boxes, author, CarryAfter(MarkersOf(block), author, value))
  {
    SmallCarry(ctx, s, author, value);
    var now, acc, cap, body, d, tail := AcceptedSettles(ctx, s, height, applied, block);
    SettledCarry(ctx, OriginOf(s, block, applied), CoresOf(block.queue), now, acc, block.height, cap, body, d,
      block.settlement.value.core, tail, author, value);
  }

  // ---------------------------------------------------------------------------
  // Runs
  // ---------------------------------------------------------------------------

  /** What an author was credited with, was paid, and sent to the pool. */
  datatype Tally = Tally(credited: nat, paid: nat, pooled: nat)

  ghost function BlockTally(ctx: Ctx, s: State, block: Block, author: Key): Tally {
    var ps := LikePayouts(ctx, s.boxes, MarkersOf(block));
    Tally(CreditedIn(block, author), PaidTo(ps, author), PooledFrom(ps, author))
  }

  function Plus(a: Tally, b: Tally): Tally {
    Tally(a.credited + b.credited, a.paid + b.paid, a.pooled + b.pooled)
  }

  ghost function RunTally(ctx: Ctx, s: State, blocks: seq<Block>, author: Key): Tally
    requires ValidCtx(ctx)
    decreases |blocks|, 1
  {
    if blocks == [] then Tally(0, 0, 0)
    else Plus(BlockTally(ctx, s, blocks[0], author), TallyOn(ctx, ApplyBlock(ctx, s, blocks[0]), blocks[1..], author))
  }

  ghost function TallyOn(ctx: Ctx, first: Outcome<State>, rest: seq<Block>, author: Key): Tally
    requires ValidCtx(ctx)
    decreases |rest|, 2
  {
    if first.Done? then RunTally(ctx, first.value, rest, author) else Tally(0, 0, 0)
  }

  /** Whole lots paid out and pooled, of what was carried in and credited, and what is left over them. */
  predicate LotsPaid(t: Tally, carried: nat, left: nat) {
    && carried + t.credited == LIKES_PER_KARMA_PAYOUT * t.pooled + left
    && left < LIKES_PER_KARMA_PAYOUT
    && t.paid == (LIKES_PER_KARMA_PAYOUT - 1) * t.pooled
  }

  /** Which is to say: by the total alone. */
  lemma LotsByTotal(t: Tally, carried: nat, left: nat)
    requires LotsPaid(t, carried, left)
    ensures t.pooled == (carried + t.credited) / LIKES_PER_KARMA_PAYOUT
    ensures t.paid == (carried + t.credited) / LIKES_PER_KARMA_PAYOUT * (LIKES_PER_KARMA_PAYOUT - 1)
    ensures left == (carried + t.credited) % LIKES_PER_KARMA_PAYOUT
  {
  }

  lemma BlockLots(ctx: Ctx, s: State, block: Block, author: Key, value: nat)
    requires BoxesOk(ctx, s) && HoldsCarry(s.boxes, author, value)
    requires forall id | id in IdSet(MarkersOf(block)) :: id !in s.boxes
    ensures LotsPaid(BlockTally(ctx, s, block, author), value, CarryAfter(MarkersOf(block), author, value))
  {
    SmallCarry(ctx, s, author, value);
    CarryHeld(ctx, s.boxes, MarkersOf(block), author, value);
    MarkersPay(ctx, s.boxes, MarkersOf(block), author, value);
  }

  lemma MarkersPay(ctx: Ctx, boxes: Boxes, markers: seq<Live>, author: Key, value: nat)
    requires CarriedValue(CarryOf(ctx, boxes, markers, author)) == value && value < LIKES_PER_KARMA_PAYOUT
    ensures var ps := LikePayouts(ctx, boxes, markers);
      LotsPaid(Tally(Credited(markers, author), PaidTo(ps, author), PooledFrom(ps, author)), value,
          CarryAfter(markers, author, value))
  {
    AuthorPaid(ctx, boxes, markers, author);
    if author !in Authors(markers) {
      NoMarkersNoCredit(markers, author);
    }
    var ps := LikePayouts(ctx, boxes, markers);
    FromTotals(Credited(markers, author), PaidTo(ps, author), PooledFrom(ps, author), value,
        author in Authors(markers));
  }

  lemma AuthorPaid(ctx: Ctx, boxes: Boxes, markers: seq<Live>, author: Key)
    ensures var ps := LikePayouts(ctx, boxes, markers);
      var total := if author in Authors(markers) then Credited(markers, author)
          + CarriedValue(CarryOf(ctx, boxes, markers, author)) else 0;
      PooledFrom(ps, author) == Whole(total) && PaidTo(ps, author) == Whole(total) * (LIKES_PER_KARMA_PAYOUT - 1)
  {
    var authors := Ascending(Authors(markers));
    AscendingLists(Authors(markers));
    assert author in authors <==> author in Members(authors);
    AuthorsPayout(ctx, boxes, markers, authors, author);
  }

  lemma FromTotals(n: nat, paid: nat, pooled: nat, value: nat, credited: bool)
    requires value < LIKES_PER_KARMA_PAYOUT && (!credited ==> n == 0)
    requires pooled == Whole(if credited then n + value else 0)
    requires paid == pooled * (LIKES_PER_KARMA_PAYOUT - 1)
    ensures LotsPaid(Tally(n, paid, pooled), value, Rest(value + n))
  {
    TotalSplits(n, value);
  }

  lemma TotalSplits(credited: nat, value: nat)
    ensures LotsPaid(Tally(credited, Whole(credited + value) * (LIKES_PER_KARMA_PAYOUT - 1), Whole(credited + value)),
      value, Rest(value + credited))
    ensures value < LIKES_PER_KARMA_PAYOUT ==> Whole(value) == 0
  {
  }

  lemma BlockMarkersAreNew(ctx: Ctx, s: State, height: int, applied: set<TxCore>, block: Block)
    requires ValidCtx(ctx) && Inv(ctx, s, height, applied) && 0 <= height < block.height
    requires ApplyBlock(ctx, s, block).Done?
    ensures forall id | id in IdSet(MarkersOf(block)) :: id !in s.boxes
  {
    var now, acc, cap, body, d, tail := AcceptedSettles(ctx, s, height, applied, block);
    MarkersAreNew(ctx, OriginOf(s, block, applied), CoresOf(block.queue), now, acc);
  }

  lemma BlockPays(ctx: Ctx, s: State, height: int, applied: set<TxCore>, block: Block, author: Key, carried: nat)
    requires ValidCtx(ctx) && Inv(ctx, s, height, applied) && 0 <= height < block.height
    requires ApplyBlock(ctx, s, block).Done? && HoldsCarry(s.boxes, author, carried)
    ensures LotsPaid(BlockTally(ctx, s, block, author), carried, CarryAfter(MarkersOf(block), author, carried))
  {
    BlockMarkersAreNew(ctx, s, height, applied, block);
    BlockLots(ctx, s, block, author, carried);
  }

  lemma LotsAdd(a: Tally, b: Tally, carried: nat, between: nat, left: nat)
    requires LotsPaid(a, carried, between) && LotsPaid(b, between, left)
    ensures LotsPaid(Plus(a, b), carried, left)
  {
  }

  lemma NoLikes(ctx: Ctx, s: State, author: Key, carried: nat)
    requires BoxesOk(ctx, s) && HoldsCarry(s.boxes, author, carried)
    ensures LotsPaid(Tally(0, 0, 0), carried, carried)
  {
    SmallCarry(ctx, s, author, carried);
  }

  /**
   * Over any run, an author is paid and the pool receives by the author's total alone: however the likes
   * are split over blocks, each whole lot pays all but one of its karma to the author and one to the
   * pool, and the carry box holds what is left.
   */
  lemma {:induction false} LikesDoNotDependOnSplit(
    ctx: Ctx, s: State, height: int, applied: set<TxCore>, blocks: seq<Block>, author: Key,
    carried: nat) returns (left: nat)
    requires ValidCtx(ctx) && Inv(ctx, s, height, applied) && height >= 0
    requires Run(ctx, s, height, blocks).Done? && HoldsCarry(s.boxes, author, carried)
    ensures HoldsCarry(Run(ctx, s, height, blocks).value.boxes, author, left)
    ensures LotsPaid(RunTally(ctx, s, blocks, author), carried, left)
    decreases |blocks|, 1
  {
    if blocks == [] {
      NoLikes(ctx, s, author, carried);
      left := carried;
    } else {
      BlockKeeps(ctx, s, height, applied, blocks[0]);
      BlockCarry(ctx, s, height, applied, blocks[0], author, carried);
      BlockPays(ctx, s, height, applied, blocks[0], author, carried);
      left := LikesOn(ctx, ApplyBlock(ctx, s, blocks[0]), blocks[0].height, applied + BlockCores(blocks[0]),
        blocks[1..], author, carried, CarryAfter(MarkersOf(blocks[0]), author, carried), BlockTally(ctx, s, blocks[0],
        author));
    }
  }

  lemma {:induction false} LikesOn(
    ctx: Ctx, first: Outcome<State>, height: int, applied: set<TxCore>, rest: seq<Block>, author: Key, carried: nat,
    between: nat, t: Tally)
    returns (left: nat)
    requires ValidCtx(ctx) && height >= 0 && first.Done? && Inv(ctx, first.value, height, applied)
    requires RunOn(ctx, first, height, rest).Done? && HoldsCarry(first.value.boxes, author, between)
    requires LotsPaid(t, carried, between)
    ensures HoldsCarry(RunOn(ctx, first, height, rest).value.boxes, author, left)
    ensures LotsPaid(Plus(t, TallyOn(ctx, first, rest, author)), carried, left)
    decreases |rest|, 2
  {
    left := LikesDoNotDependOnSplit(ctx, first.value, height, applied, rest, author, between);
    LotsAdd(t, RunTally(ctx, first.value, rest, author), carried, between, left);
  }
}
