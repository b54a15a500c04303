/** The settlement's legs balance family by family: karma against karma, credit against credit. */
module SettleSums {
  import opened Wrappers
  import opened Sums
  import opened Orders
  import opened Ledger
  import opened Engine
  import opened Coinbase
  import opened Queries
  import opened Decay
  import opened Settlement

  // ---------------------------------------------------------------------------
  // Sums over listed boxes
  // ---------------------------------------------------------------------------

  ghost function LiveSum(ls: seq<Live>, w: Box -> int): int {
    if ls == [] then 0 else w(ls[0].box) + LiveSum(ls[1..], w)
  }

  lemma {:induction false} LiveSumConcat(a: seq<Live>, b: seq<Live>, w: Box -> int)
    ensures LiveSum(a + b, w) == LiveSum(a, w) + LiveSum(b, w)
  {
    if a == [] {
      assert a + b == b;
    } else {
      assert (a + b)[1..] == a[1..] + b;
      LiveSumConcat(a[1..], b, w);
    }
  }

  lemma {:induction false} LiveSumIs(boxes: Boxes, ls: seq<Live>, w: Box -> int)
    requires forall l | l in ls :: l.id in boxes && boxes[l.id] == l.box
    ensures forall id | id in Ids(ls) :: id in boxes
    ensures SeqSum(ValuesAt(boxes, Ids(ls)), w) == LiveSum(ls, w)
  {
    if ls != [] {
      assert ls[0] in ls;
      LiveSumIs(boxes, ls[1..], w);
      assert Ids(ls) == [ls[0].id] + Ids(ls[1..]);
      assert ValuesAt(boxes, Ids(ls)) == [boxes[ls[0].id]] + ValuesAt(boxes, Ids(ls)[1..]);
    }
  }

  ghost function ValueOf(bs: seq<Box>): int { SeqSum(bs, ValueWeight()) }

  lemma {:induction false} FaceIsLiveSum(ls: seq<Live>)
    ensures FaceOf(ls) == LiveSum(ls, ValueWeight())
  {
    if ls != [] {
      FaceIsLiveSum(ls[1..]);
    }
  }

  lemma {:induction false} FaceConcat(a: seq<Live>, b: seq<Live>)
    ensures FaceOf(a + b) == FaceOf(a) + FaceOf(b)
  {
    FaceIsLiveSum(a);
    FaceIsLiveSum(b);
    FaceIsLiveSum(a + b);
    LiveSumConcat(a, b, ValueWeight());
  }

  /** A list on the karma side: its face on that side, nothing on the other, no weight. */
  lemma {:induction false} KarmaList(ls: seq<Live>)
    requires forall l | l in ls :: KarmaSide(l.box)
    ensures LiveSum(ls, KarmaWeight()) == FaceOf(ls) && LiveSum(ls, CreditWeight()) == 0 && LiveSum(ls, WeightOf()) == 0
  {
    if ls != [] {
      assert ls[0] in ls;
      KarmaList(ls[1..]);
    }
  }

  lemma {:induction false} CreditList(ls: seq<Live>)
    requires forall l | l in ls :: CreditSide(l.box)
    ensures LiveSum(ls, KarmaWeight()) == 0 && LiveSum(ls, CreditWeight()) == FaceOf(ls)
  {
    if ls != [] {
      assert ls[0] in ls;
      CreditList(ls[1..]);
    }
  }

  lemma {:induction false} WeightlessList(ls: seq<Live>)
    requires forall l | l in ls :: !l.box.BackerStake? && !l.box.BackerUnstake?
    ensures LiveSum(ls, WeightOf()) == 0
  {
    if ls != [] {
      assert ls[0] in ls;
      WeightlessList(ls[1..]);
    }
  }

  lemma {:induction false} UnstakedIsWeight(ls: seq<Live>)
    requires forall l | l in ls :: l.box.BackerUnstake? && l.box.value == 0
    ensures LiveSum(ls, WeightOf()) == Unstaked(ls) && FaceOf(ls) == 0
  {
    if ls != [] {
      assert ls[0] in ls;
      UnstakedIsWeight(ls[1..]);
    }
  }

  lemma KarmaBoxesOut(bs: seq<Box>)
    requires forall b | b in bs :: KarmaSide(b)
    ensures SeqSum(bs, KarmaWeight()) == ValueOf(bs) && SeqSum(bs, CreditWeight()) == 0 && SeqSum(bs, WeightOf()) == 0
  {
    SeqSumSame(bs, KarmaWeight(), ValueWeight());
    SeqSumZero(bs, CreditWeight());
    SeqSumZero(bs, WeightOf());
  }

  lemma CreditBoxesOut(bs: seq<Box>)
    requires forall b | b in bs :: CreditSide(b) && !b.BackerStake? && !b.BackerUnstake?
    ensures SeqSum(bs, KarmaWeight()) == 0 && SeqSum(bs, CreditWeight()) == ValueOf(bs) && SeqSum(bs, WeightOf()) == 0
  {
    SeqSumSame(bs, CreditWeight(), ValueWeight());
    SeqSumZero(bs, KarmaWeight());
    SeqSumZero(bs, WeightOf());
  }

  // ---------------------------------------------------------------------------
  // Earnings
  // ---------------------------------------------------------------------------

  function Amounts(es: seq<Earning>): nat {
    if es == [] then 0 else es[0].amount + Amounts(es[1..])
  }

  function EarnedBy(es: seq<Earning>, owners: seq<Key>): nat {
    if owners == [] then 0 else Earned(es, owners[0]) + EarnedBy(es, owners[1..])
  }

  lemma {:induction false} AmountsConcat(a: seq<Earning>, b: seq<Earning>)
    ensures Amounts(a + b) == Amounts(a) + Amounts(b)
  {
    if a == [] {
      assert a + b == b;
    } else {
      assert (a + b)[1..] == a[1..] + b;
      AmountsConcat(a[1..], b);
    }
  }

  function ShareOf(e: Earning, owners: seq<Key>): nat {
    if owners == [] then 0 else (if e.owner == owners[0] then e.amount else 0) + ShareOf(e, owners[1..])
  }

  lemma {:induction false} FirstShare(es: seq<Earning>, owners: seq<Key>)
    requires es != []
    ensures EarnedBy(es, owners) == ShareOf(es[0], owners) + EarnedBy(es[1..], owners)
  {
    if owners != [] {
      FirstShare(es, owners[1..]);
    }
  }

  lemma {:induction false} ShareIsWhole(e: Earning, owners: seq<Key>)
    requires Distinct(owners)
    ensures ShareOf(e, owners) == if e.owner in owners then e.amount else 0
  {
    if owners != [] {
      DistinctTail(owners);
      ShareIsWhole(e, owners[1..]);
    }
  }

  lemma {:induction false} NothingEarned(owners: seq<Key>)
    ensures EarnedBy([], owners) == 0
  {
    if owners != [] {
      NothingEarned(owners[1..]);
    }
  }

  /** Every amount reaches exactly one owner. */
  lemma {:induction false} EarnedInFull(es: seq<Earning>, owners: seq<Key>)
    requires Distinct(owners) && forall e | e in es && e.amount > 0 :: e.owner in owners
    ensures EarnedBy(es, owners) == Amounts(es)
  {
    if es == [] {
      NothingEarned(owners);
    } else {
      assert es[0] in es;
      FirstShare(es, owners);
      ShareIsWhole(es[0], owners);
      EarnedInFull(es[1..], owners);
    }
  }

  // ---------------------------------------------------------------------------
  // Leg by leg
  // ---------------------------------------------------------------------------

  /** A marker as an amount its author is credited. */
  function AsEarnings(markers: seq<Live>): (es: seq<Earning>)
    ensures |es| == |markers|
    ensures forall i | 0 <= i < |es| :: es[i] == Earning(AuthorOf(markers[i].box), markers[i].box.value)
  {
    if markers == [] then []
    else [Earning(AuthorOf(markers[0].box), markers[0].box.value)] + AsEarnings(markers[1..])
  }

  lemma {:induction false} CreditedIsEarned(markers: seq<Live>, author: Key)
    ensures Credited(markers, author) == Earned(AsEarnings(markers), author)
    ensures Amounts(AsEarnings(markers)) == FaceOf(markers)
  {
    if markers != [] {
      CreditedIsEarned(markers[1..], author);
      assert AsEarnings(markers)[1..] == AsEarnings(markers[1..]);
    }
  }

  lemma {:induction false} PayoutsBalance(ctx: Ctx, boxes: Boxes, markers: seq<Live>, authors: seq<Key>, height: nat)
    ensures var ps := PayoutsFor(ctx, boxes, markers, authors);
      Amounts(FromLikes(ps)) + Pooled(ps) + ValueOf(CarryOutputs(height, ps))
        == EarnedBy(AsEarnings(markers), authors) + FaceOf(CarriedBoxes(ps))
  {
    if authors != [] {
      var ps := PayoutsFor(ctx, boxes, markers, authors);
      var rest := PayoutsFor(ctx, boxes, markers, authors[1..]);
      assert ps[1..] == rest;
      PayoutsBalance(ctx, boxes, markers, authors[1..], height);
      CreditedIsEarned(markers, authors[0]);
      assert FromLikes(ps)[1..] == FromLikes(rest);
      var carry := if ps[0].carry > 0 then [LikeAccrual(ps[0].carry, height, ps[0].author)] else [];
      SeqSumConcat(carry, CarryOutputs(height, rest), ValueWeight());
      FaceConcat(if ps[0].carried.Some? then [ps[0].carried.value] else [], CarriedBoxes(rest));
    }
  }

  /** What the block's markers and the authors' carries hold is paid, pooled or carried on. */
  lemma LikesBalance(ctx: Ctx, boxes: Boxes, markers: seq<Live>, height: nat)
    ensures var ps := LikePayouts(ctx, boxes, markers);
      Amounts(FromLikes(ps)) + Pooled(ps) + ValueOf(CarryOutputs(height, ps)) == FaceOf(markers)
          + FaceOf(CarriedBoxes(ps))
  {
    var authors := Ascending(Authors(markers));
    AscendingLists(Authors(markers));
    PayoutsBalance(ctx, boxes, markers, authors, height);
    CreditedIsEarned(markers, 0);
    forall e | e in AsEarnings(markers) && e.amount > 0 ensures e.owner in authors {
      var i :| 0 <= i < |AsEarnings(markers)| && AsEarnings(markers)[i] == e;
      assert markers[i] in markers && e.owner in Authors(markers);
      assert e.owner in Members(authors);
    }
    EarnedInFull(AsEarnings(markers), authors);
  }

  lemma {:induction false} BondsBalance(records: Records, bonds: seq<Live>)
    ensures Amounts(FromBonds(records, bonds)) + Forfeited(records, bonds) == FaceOf(bonds)
  {
    if bonds != [] {
      BondsBalance(records, bonds[1..]);
      assert FromBonds(records, bonds)[1..] == FromBonds(records, bonds[1..]);
    }
  }

  lemma {:induction false} EscrowsBalance(escrows: seq<Live>)
    ensures Amounts(FromEscrows(escrows)) == FaceOf(escrows)
  {
    if escrows != [] {
      EscrowsBalance(escrows[1..]);
      assert FromEscrows(escrows)[1..] == FromEscrows(escrows[1..]);
    }
  }

  lemma {:induction false} LapsesBalance(ctx: Ctx, height: nat, lapsed: seq<Live>)
    ensures ValueOf(LapseOutputs(ctx, height, lapsed)) == FaceOf(lapsed)
  {
    if lapsed != [] {
      LapsesBalance(ctx, height, lapsed[1..]);
      assert LapseOutputs(ctx, height, lapsed)[1..] == LapseOutputs(ctx, height, lapsed[1..]);
    }
  }

  lemma {:induction false} GrantsBalance(height: nat, bonds: seq<Live>)
    ensures ValueOf(Grants(height, bonds)) == FaceOf(bonds)
  {
    if bonds != [] {
      GrantsBalance(height, bonds[1..]);
      assert Grants(height, bonds)[1..] == Grants(height, bonds[1..]);
    }
  }

  /** A plan's boxes are worth its replacement and its burn. */
  predicate PlanBalanced(plan: Plan) {
    FaceOf(plan.consumed) == plan.burn + if plan.burn > 0 then plan.newValue else 0
  }

  lemma {:induction false} PlansBalanced(ctx: Ctx, s: State, cores: seq<TxCore>, owners: seq<Key>, height: int)
    requires ValidCtx(ctx)
    ensures forall plan | plan in PlansFor(ctx, s, cores, owners, height) :: PlanBalanced(plan)
  {
    if owners != [] {
      PlansBalanced(ctx, s, cores, owners[1..], height);
    }
  }

  lemma {:induction false} DecayBalance(height: nat, plans: seq<Plan>)
    requires forall plan | plan in plans :: PlanBalanced(plan)
    ensures FaceOf(Consumed(plans)) == Burned(plans) + ValueOf(DecayOutputs(height, plans))
  {
    if plans != [] {
      assert plans[0] in plans && PlanBalanced(plans[0]);
      DecayBalance(height, plans[1..]);
      FaceConcat(plans[0].consumed, Consumed(plans[1..]));
      var first := if plans[0].burn > 0 then [Karma(plans[0].newValue, height, plans[0].owner, false)] else [];
      SeqSumConcat(first, DecayOutputs(height, plans[1..]), ValueWeight());
    }
  }

  lemma {:induction false} IncomesBalance(ctx: Ctx, boxes: Boxes, es: seq<Earning>, spent: set<BoxId>,
    owners: seq<Key>, height: nat)
    ensures var ins := IncomesFor(ctx, boxes, es, spent, owners);
      ValueOf(IncomeOutputs(height, ins)) == FaceOf(BaseBoxes(ins)) + EarnedBy(es, owners)
  {
    if owners != [] {
      var ins := IncomesFor(ctx, boxes, es, spent, owners);
      var rest := IncomesFor(ctx, boxes, es, spent, owners[1..]);
      assert ins[1..] == rest;
      IncomesBalance(ctx, boxes, es, spent, owners[1..], height);
      var value := CarriedValue(ins[0].base) + ins[0].amount;
      SeqSumConcat(if value > 0 then [Karma(value, height, ins[0].owner, true)] else [], IncomeOutputs(height, rest),
          ValueWeight());
      FaceConcat(if ins[0].base.Some? then [ins[0].base.value] else [], BaseBoxes(rest));
    }
  }

  /** The income leg pays out what every leg settles to an owner, over the boxes it takes in. */
  lemma IncomeBalance(ctx: Ctx, boxes: Boxes, es: seq<Earning>, spent: set<BoxId>, height: nat)
    ensures var ins := IncomesFor(ctx, boxes, es, spent, Ascending(Earners(es)));
      ValueOf(IncomeOutputs(height, ins)) == FaceOf(BaseBoxes(ins)) + Amounts(es)
  {
    var owners := Ascending(Earners(es));
    AscendingLists(Earners(es));
    IncomesBalance(ctx, boxes, es, spent, owners, height);
    forall e | e in es && e.amount > 0 ensures e.owner in owners {
      assert e.owner in Earners(es) && e.owner in Members(owners);
    }
    EarnedInFull(es, owners);
  }

  lemma {:induction false} ReleasesBalance(height: nat, unstakes: seq<Live>, releases: seq<nat>)
    requires |unstakes| == |releases|
    ensures ValueOf(ReleaseOutputs(height, unstakes, releases)) == Total(releases)
  {
    if unstakes != [] {
      ReleasesBalance(height, unstakes[1..], releases[1..]);
      var first := if releases[0] > 0 then [Credit(releases[0], height, UnstakeOwner(unstakes[0].box), None)] else [];
      SeqSumConcat(first, ReleaseOutputs(height, unstakes[1..], releases[1..]), ValueWeight());
    }
  }

  lemma {:induction false} FeesBalance(cores: seq<TxCore>, rent: set<TxCore>)
    ensures FeesOf(cores, rent, false) + FeesOf(cores, rent, true) == FaceOf(BodyListed(cores, IsFee))
  {
    if cores != [] {
      FeesBalance(cores[1..], rent);
      FaceConcat(Listed(cores[0], 0, IsFee), BodyListed(cores[1..], IsFee));
    }
  }
}
