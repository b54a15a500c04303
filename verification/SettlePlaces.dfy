/** Every place a settlement's output takes has been cleared by its inputs. */
module SettlePlaces {
  import opened Wrappers
  import opened Sums
  import opened Orders
  import opened Ledger
  import opened Engine
  import opened Body
  import opened Coinbase
  import opened Queries
  import opened Decay
  import opened Settlement
  import opened Blocks
  import opened Applying
  import opened Lawful
  import opened Invariant
  import opened BodyRun
  import opened BodyKeeps
  import opened BodyOutcome
  import opened AfterBody
  import opened SettleInputs
  import opened SettleSums
  import opened SettleBalance
  import opened SettleShape

  // ---------------------------------------------------------------------------
  // What the inputs take
  // ---------------------------------------------------------------------------

  lemma IdSetConcat(a: seq<Live>, b: seq<Live>)
    ensures IdSet(a + b) == IdSet(a) + IdSet(b)
  {
    forall id | id in IdSet(a) + IdSet(b) ensures id in IdSet(a + b) {
      var l :| (l in a || l in b) && l.id == id;
      assert l in a + b;
    }
  }

  lemma TakenAll(
    l0: seq<Live>, l1: seq<Live>, l2: seq<Live>, l4: seq<Live>, l5: seq<Live>, l6: seq<Live>, l7: seq<Live>,
    l8: seq<Live>, l9: seq<Live>, l10: seq<Live>, l11: seq<Live>, l12: seq<Live>, l13: seq<Live>)
    ensures IdSet(l0 + l1 + l2 + l4 + l5 + l6 + l7 + l8 + l9 + l10 + l11 + l12 + l13)
      == IdSet(l0) + IdSet(l1) + IdSet(l2) + IdSet(l4) + IdSet(l5) + IdSet(l6) + IdSet(l7)
      + IdSet(l8) + IdSet(l9) + IdSet(l10) + IdSet(l11) + IdSet(l12) + IdSet(l13)
  {
    IdSetConcat(l0, l1);
    IdSetConcat(l0 + l1, l2);
    IdSetConcat(l0 + l1 + l2, l4);
    IdSetConcat(l0 + l1 + l2 + l4, l5);
    IdSetConcat(l0 + l1 + l2 + l4 + l5, l6);
    IdSetConcat(l0 + l1 + l2 + l4 + l5 + l6, l7);
    IdSetConcat(l0 + l1 + l2 + l4 + l5 + l6 + l7, l8);
    IdSetConcat(l0 + l1 + l2 + l4 + l5 + l6 + l7 + l8, l9);
    IdSetConcat(l0 + l1 + l2 + l4 + l5 + l6 + l7 + l8 + l9, l10);
    IdSetConcat(l0 + l1 + l2 + l4 + l5 + l6 + l7 + l8 + l9 + l10, l11);
    IdSetConcat(l0 + l1 + l2 + l4 + l5 + l6 + l7 + l8 + l9 + l10 + l11, l12);
    IdSetConcat(l0 + l1 + l2 + l4 + l5 + l6 + l7 + l8 + l9 + l10 + l11 + l12, l13);
  }

  lemma PartsTaken(
    ctx: Ctx, s: State, cap: Captured, height: nat, body: SettlementBody,
    d: Derived, slices: Slices, treasury: Move, backer: Move, legs: Legs, pool: Move)
    requires ValidCtx(ctx) && Parts(ctx, s, cap, height, body, d, slices, treasury, backer, legs, pool)
    ensures IdSet(d.inputs) == IdSet([slices.emission]) + IdSet(treasury.consumed) + IdSet(backer.consumed)
      + IdSet(body.markers)
      + IdSet(body.prices) + IdSet(CarriedBoxes(legs.payouts)) + IdSet(legs.bonds) + IdSet(cap.escrows)
          + IdSet(cap.lapsed)
      + IdSet(Consumed(cap.plans)) + IdSet(BaseBoxes(legs.incomes)) + IdSet(pool.consumed) + IdSet(body.feeBoxes)
  {
    TakenAll([slices.emission], treasury.consumed, backer.consumed, body.markers, body.prices,
      CarriedBoxes(legs.payouts), legs.bonds, cap.escrows, cap.lapsed, Consumed(cap.plans), BaseBoxes(legs.incomes),
      pool.consumed, body.feeBoxes);
  }

  // ---------------------------------------------------------------------------
  // Boxes that outlive the block share no place
  // ---------------------------------------------------------------------------

  ghost predicate Apart(boxes: Boxes, markers: set<BoxId>) {
    forall i, j | i in boxes && j in boxes && i != j && i !in markers && j !in markers :: !Rivals(boxes[i], boxes[j])
  }

  /** But for the block's own markers, no two boxes after the body take one place. */
  lemma BodyLeavesApart(ctx: Ctx, o: Origin, cores: seq<TxCore>, s: State, acc: Acc)
    requires Ready(ctx, o, cores, s, acc)
    ensures Apart(s.boxes, IdSet(BodyListed(cores, IsAccrual)))
  {
    var markers := BodyListed(cores, IsAccrual);
    BodyListIsLive(ctx, o, cores, s, acc, IsAccrual);
    forall i, j | i in s.boxes && j in s.boxes && i != j && i !in IdSet(markers) && j !in IdSet(markers)
      ensures !Rivals(s.boxes[i], s.boxes[j])
    {
      NotMarkerIsOld(ctx, o, cores, s, acc, i);
      NotMarkerIsOld(ctx, o, cores, s, acc, j);
      assert !UserRivals(s.boxes[i], s.boxes[j]);
    }
  }

  /** Outside the markers, only karma, vouches and placeless boxes are new. */
  lemma NotMarkerIsOld(ctx: Ctx, o: Origin, cores: seq<TxCore>, s: State, acc: Acc, id: BoxId)
    requires Ready(ctx, o, cores, s, acc) && ListLeft(o.start.boxes, s.boxes, BodyListed(cores, IsAccrual), IsAccrual)
    requires id in s.boxes && id !in IdSet(BodyListed(cores, IsAccrual))
    ensures id in o.start.boxes ==> s.boxes[id] == o.start.boxes[id]
    ensures id !in o.start.boxes ==> s.boxes[id].Karma? || s.boxes[id].Vouch? || SlotOf(s.boxes[id]).None?
  {
    NewIsUserMade(ctx, o, cores, s, acc, id);
    var l := Live(id, s.boxes[id]);
    assert l in BodyListed(cores, IsAccrual) ==> l.id in IdSet(BodyListed(cores, IsAccrual));
  }

  // ---------------------------------------------------------------------------
  // Cleared places
  // ---------------------------------------------------------------------------

  ghost predicate Cleared(boxes: Boxes, taken: set<BoxId>, slot: Slot) {
    forall id | id in boxes && SlotOf(boxes[id]) == Some(slot) :: id in taken
  }

  ghost predicate AllCleared(boxes: Boxes, taken: set<BoxId>, bs: seq<Box>) {
    forall b | b in bs && SlotOf(b).Some? :: Cleared(boxes, taken, SlotOf(b).value)
  }

  lemma TakenMore(boxes: Boxes, some: set<BoxId>, more: set<BoxId>, bs: seq<Box>)
    requires some <= more && AllCleared(boxes, some, bs)
    ensures AllCleared(boxes, more, bs)
  {
    forall b | b in bs && SlotOf(b).Some? ensures Cleared(boxes, more, SlotOf(b).value) {
      assert Cleared(boxes, some, SlotOf(b).value);
    }
  }

  /** A live box alone in its place clears it when it is taken. */
  lemma OneClears(boxes: Boxes, markers: set<BoxId>, l: Live, slot: Slot)
    requires Apart(boxes, markers) && l.id in boxes && boxes[l.id] == l.box && l.id !in markers
    requires SlotOf(l.box) == Some(slot)
    ensures Cleared(boxes, {l.id} + markers, slot)
  {
    forall id | id in boxes && SlotOf(boxes[id]) == Some(slot) ensures id in {l.id} + markers {
      assert Rivals(boxes[id], boxes[l.id]);
    }
  }

  lemma OneTypeClears(ctx: Ctx, boxes: Boxes, markers: set<BoxId>, p: Box -> bool, slot: Slot)
    requires Apart(boxes, markers)
    requires forall b :: p(b) <==> SlotOf(b) == Some(slot)
    requires forall id | id in markers && id in boxes :: !p(boxes[id])
    ensures Cleared(boxes, IdSet(Listing(FirstLive(ctx, boxes, p))), slot)
  {
    FirstLiveIs(ctx, boxes, p);
    var first := FirstLive(ctx, boxes, p);
    if first.Some? {
      OneClears(boxes, markers, first.value, slot);
      forall id | id in boxes && SlotOf(boxes[id]) == Some(slot) ensures id in IdSet(Listing(first)) {
        assert id in {first.value.id} + markers && id !in markers;
        assert first.value in Listing(first);
      }
    }
  }

  lemma CarriesCleared(
    ctx: Ctx, boxes: Boxes, markers: seq<Live>, authors: seq<Key>, height: nat)
    requires Apart(boxes, IdSet(markers)) && Distinct(authors)
    ensures var ps := PayoutsFor(ctx, boxes, markers, authors);
      AllCleared(boxes, IdSet(CarriedBoxes(ps)) + IdSet(markers), CarryOutputs(height, ps))
  {
    var ps := PayoutsFor(ctx, boxes, markers, authors);
    CarriesOut({}, ctx, boxes, markers, authors, height);
    forall b | b in CarryOutputs(height, ps) && SlotOf(b).Some?
      ensures Cleared(boxes, IdSet(CarriedBoxes(ps)) + IdSet(markers), SlotOf(b).value)
    {
      CarryClears(ctx, boxes, markers, authors, b.author);
    }
  }

  lemma CarryClears(ctx: Ctx, boxes: Boxes, markers: seq<Live>, authors: seq<Key>, author: Key)
    requires Apart(boxes, IdSet(markers)) && Distinct(authors) && author in authors
    ensures Cleared(boxes, IdSet(CarriedBoxes(PayoutsFor(ctx, boxes, markers, authors))) + IdSet(markers),
      Carry(author))
  {
    CarryIs(ctx, boxes, markers, author);
    var carried := CarryOf(ctx, boxes, markers, author);
    if carried.Some? {
      OneClears(boxes, IdSet(markers), carried.value, Carry(author));
      CarriedListed(ctx, boxes, markers, authors, author);
    }
  }

  lemma CarriedListed(ctx: Ctx, boxes: Boxes, markers: seq<Live>, authors: seq<Key>, author: Key)
    requires Distinct(authors) && author in authors && CarryOf(ctx, boxes, markers, author).Some?
    ensures CarryOf(ctx, boxes, markers, author).value.id in IdSet(CarriedBoxes(PayoutsFor(ctx, boxes, markers,
      authors)))
  {
    var f := CarryBy(ctx, boxes, markers);
    CarriedIsGathered(ctx, boxes, markers, authors);
    Gathers(authors, f, author, CarryOf(ctx, boxes, markers, author).value);
  }

  lemma {:induction false} Gathers(keys: seq<Key>, f: Key -> seq<Live>, k: Key, l: Live)
    requires k in keys && l in f(k)
    ensures l in Gather(keys, f)
  {
    if k != keys[0] {
      Gathers(keys[1..], f, k, l);
    }
  }

  lemma IncomesCleared(ctx: Ctx, boxes: Boxes, markers: seq<Live>, es: seq<Earning>, spent: set<BoxId>,
    owners: seq<Key>, height: nat)
    requires Apart(boxes, IdSet(markers)) && Distinct(owners)
    requires forall id | id in IdSet(markers) && id in boxes :: !boxes[id].Karma?
    ensures var ins := IncomesFor(ctx, boxes, es, spent, owners);
      AllCleared(boxes, IdSet(BaseBoxes(ins)) + spent, IncomeOutputs(height, ins))
  {
    var ins := IncomesFor(ctx, boxes, es, spent, owners);
    IncomesOut({}, ctx, boxes, es, spent, owners, height);
    forall b | b in IncomeOutputs(height, ins) && SlotOf(b).Some?
      ensures Cleared(boxes, IdSet(BaseBoxes(ins)) + spent, SlotOf(b).value)
    {
      IncomeClears(ctx, boxes, markers, es, spent, owners, b.owner);
    }
  }

  lemma IncomeClears(ctx: Ctx, boxes: Boxes, markers: seq<Live>, es: seq<Earning>, spent: set<BoxId>, owners: seq<Key>,
    owner: Key)
    requires Apart(boxes, IdSet(markers)) && owner in owners
    requires forall id | id in IdSet(markers) && id in boxes :: !boxes[id].Karma?
    ensures Cleared(boxes, IdSet(BaseBoxes(IncomesFor(ctx, boxes, es, spent, owners))) + spent, Paid(owner))
  {
    IncomeBoxIs(ctx, boxes, owner, spent);
    var base := IncomeBox(ctx, boxes, owner, spent);
    if base.Some? {
      BaseListed(ctx, boxes, es, spent, owners, owner);
      BaseClears(boxes, IdSet(markers), base.value, owner);
    }
  }

  lemma BaseListed(ctx: Ctx, boxes: Boxes, es: seq<Earning>, spent: set<BoxId>, owners: seq<Key>, owner: Key)
    requires owner in owners && IncomeBox(ctx, boxes, owner, spent).Some?
    ensures IncomeBox(ctx, boxes, owner, spent).value.id in IdSet(BaseBoxes(IncomesFor(ctx, boxes, es, spent, owners)))
  {
    BasesAreGathered(ctx, boxes, es, spent, owners);
    Gathers(owners, BaseBy(ctx, boxes, spent), owner, IncomeBox(ctx, boxes, owner, spent).value);
  }

  lemma BaseClears(boxes: Boxes, markers: set<BoxId>, base: Live, owner: Key)
    requires Apart(boxes, markers) && IsKarmaOf(boxes, owner, base) && base.box.income
    requires forall id | id in markers && id in boxes :: !boxes[id].Karma?
    ensures Cleared(boxes, {base.id}, Paid(owner))
  {
    OneClears(boxes, markers, base, Paid(owner));
    forall id | id in boxes && SlotOf(boxes[id]) == Some(Paid(owner)) ensures id == base.id {
      assert id in {base.id} + markers;
    }
  }

  lemma DecaysCleared(ctx: Ctx, before: State, cores: seq<TxCore>, boxes: Boxes, owners: seq<Key>, height: nat)
    requires ValidCtx(ctx) && Distinct(owners)
    requires forall owner :: ProjectionLive(ctx, before.boxes, cores, boxes, owner)
    ensures var plans := PlansFor(ctx, before, cores, owners, height);
      AllCleared(boxes, IdSet(Consumed(plans)), DecayOutputs(height, plans))
  {
    var plans := PlansFor(ctx, before, cores, owners, height);
    forall b | b in DecayOutputs(height, plans) && SlotOf(b).Some?
      ensures Cleared(boxes, IdSet(Consumed(plans)), SlotOf(b).value)
    {
      BurnsNameTheirOwner(height, plans, b);
      var plan :| plan in plans && plan.burn > 0 && b == Karma(plan.newValue, height, plan.owner, false);
      BurnTakesAll(ctx, before, cores, owners, height, plan);
      assert ProjectionLive(ctx, before.boxes, cores, boxes, plan.owner);
      BurnClears(ctx, before.boxes, cores, boxes, plan.owner, Consumed(plans));
    }
  }

  lemma BurnClears(ctx: Ctx, before: Boxes, cores: seq<TxCore>, boxes: Boxes, owner: Key, consumed: seq<Live>)
    requires ProjectionLive(ctx, before, cores, boxes, owner)
    requires forall l | l in Projected(ctx, before, cores, owner) :: l in consumed
    ensures Cleared(boxes, IdSet(consumed), Own(owner))
  {
    forall id | id in boxes && SlotOf(boxes[id]) == Some(Own(owner)) ensures id in IdSet(consumed) {
      var l := Live(id, boxes[id]);
      assert IsKarmaOf(boxes, owner, l);
      assert l in consumed;
    }
  }

  lemma {:induction false} BurnsNameTheirOwner(height: nat, plans: seq<Plan>, b: Box)
    requires b in DecayOutputs(height, plans)
    ensures exists plan :: plan in plans && plan.burn > 0 && b == Karma(plan.newValue, height, plan.owner, false)
  {
    var first := if plans[0].burn > 0 then [Karma(plans[0].newValue, height, plans[0].owner, false)] else [];
    assert DecayOutputs(height, plans) == first + DecayOutputs(height, plans[1..]);
    if b in first {
      assert plans[0] in plans;
    } else {
      BurnsNameTheirOwner(height, plans[1..], b);
      var plan :| plan in plans[1..] && plan.burn > 0 && b == Karma(plan.newValue, height, plan.owner, false);
      assert plan in plans;
    }
  }

  /** A plan that burns takes every box of its owner's projection, which is not empty. */
  lemma {:induction false} BurnTakesAll(ctx: Ctx, s: State, cores: seq<TxCore>, owners: seq<Key>, height: int,
    plan: Plan)
    requires ValidCtx(ctx)
    requires plan in PlansFor(ctx, s, cores, owners, height) && plan.burn > 0
    ensures plan.owner in owners
    ensures plan.consumed == Projected(ctx, s.boxes, cores, plan.owner) && plan.consumed != []
    ensures forall l | l in plan.consumed :: l in Consumed(PlansFor(ctx, s, cores, owners, height))
  {
    var plans := PlansFor(ctx, s, cores, owners, height);
    var rest := PlansFor(ctx, s, cores, owners[1..], height);
    if plan in rest {
      BurnTakesAll(ctx, s, cores, owners[1..], height, plan);
      assert plans == rest || (plans[1..] == rest && Consumed(plans) == plans[0].consumed + Consumed(rest));
    } else {
      assert plans == [plan] + rest;
      assert Consumed(plans) == plan.consumed + Consumed(plans[1..]);
    }
  }

  // ---------------------------------------------------------------------------
  // The settlement's own places
  // ---------------------------------------------------------------------------

  lemma InputIds(ls: seq<Live>)
    ensures Members(Ids(ls)) == IdSet(ls)
  {
    forall id | id in IdSet(ls) ensures id in Members(Ids(ls)) {
      var l :| l in ls && l.id == id;
      IdListed(ls, l);
    }
    forall id | id in Members(Ids(ls)) ensures id in IdSet(ls) {
      var i :| 0 <= i < |Ids(ls)| && Ids(ls)[i] == id;
      assert ls[i] in ls;
    }
  }

  /** Inputs that clear every place the outputs take leave no two boxes in one. */
  lemma ClearedLeavesNoRivals(boxes: Boxes, core: TxCore, markers: set<BoxId>)
    requires Apart(boxes, markers) && markers <= Members(core.inputs)
    requires Unrivalled(core.outputs) && AllCleared(boxes, Members(core.inputs), core.outputs)
    ensures NoRivals(AfterTx(boxes, core))
  {
    var after := AfterTx(boxes, core);
    forall i, j | i in after && j in after && i != j ensures !Rivals(after[i], after[j]) {
      if i in OutputsFrom(core, 0) && j in OutputsFrom(core, 0) {
        var lo, hi := if i.index < j.index then i else j, if i.index < j.index then j else i;
        assert after[lo] == core.outputs[lo.index] && after[hi] == core.outputs[hi.index];
        assert lo.index < hi.index;
        assert !Rivals(core.outputs[lo.index], core.outputs[hi.index]);
      } else if i in OutputsFrom(core, 0) {
        ClearedOf(boxes, core, core.outputs[i.index], j);
      } else if j in OutputsFrom(core, 0) {
        ClearedOf(boxes, core, core.outputs[j.index], i);
      }
    }
  }

  lemma ClearedOf(boxes: Boxes, core: TxCore, b: Box, id: BoxId)
    requires AllCleared(boxes, Members(core.inputs), core.outputs) && b in core.outputs
    requires id in boxes && id !in Members(core.inputs)
    ensures !Rivals(b, boxes[id]) && !Rivals(boxes[id], b)
  {
    assert SlotOf(b).Some? ==> Cleared(boxes, Members(core.inputs), SlotOf(b).value);
  }
}
