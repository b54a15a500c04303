/** The boxes a settlement leaves: no transient, no two in one place. */
module SettleShape {
  import opened Wrappers
  import opened Sums
  import opened Orders
  import opened Ledger
  import opened Engine
  import opened Body
  import opened Coinbase
  import opened Queries
  import opened Decay
  import opened Settlement
  import opened Blocks
  import opened Applying
  import opened Lawful
  import opened Invariant
  import opened BodyRun
  import opened BodyKeeps
  import opened BodyOutcome
  import opened AfterBody
  import opened SettleInputs
  import opened SettleSums
  import opened SettleBalance

  // ---------------------------------------------------------------------------
  // The outputs take different places
  // ---------------------------------------------------------------------------

  ghost predicate Unrivalled(bs: seq<Box>) {
    forall i, j | 0 <= i < j < |bs| :: !Rivals(bs[i], bs[j])
  }

  /** The leg an output belongs to; unmarked karma goes by whether its owner was known before the block. */
  function ClassOf(known: set<Key>, b: Box): nat {
    match b
    case Emission(_, _) => 0
    case Treasury(_, _) => 1
    case BackerPool(_, _, _, _) => 2
    case KarmaPool(_, _) => 3
    case Karma(_, _, owner, income) => if income then 8 else if owner in known then 7 else 4
    case LikeAccrual(_, _, _) => 5
    case VouchEscrow(_, _, _, _) => 6
    case _ => 9
  }

  ghost predicate OutLeg(known: set<Key>, bs: seq<Box>, lo: nat, hi: nat) {
    Unrivalled(bs) && forall b | b in bs :: lo <= ClassOf(known, b) < hi
  }

  lemma JoinOut(known: set<Key>, a: seq<Box>, b: seq<Box>, lo: nat, k: nat, hi: nat)
    requires lo <= k <= hi && OutLeg(known, a, lo, k) && OutLeg(known, b, k, hi)
    ensures OutLeg(known, a + b, lo, hi)
  {
    var c := a + b;
    forall i, j | 0 <= i < j < |c| ensures !Rivals(c[i], c[j]) {
      assert i < |a| ==> c[i] in a;
      assert i >= |a| ==> c[i] == b[i - |a|];
      assert j >= |a| ==> c[j] == b[j - |a|] && c[j] in b;
    }
  }

  lemma PrependUnrivalled(b: Box, bs: seq<Box>)
    requires Unrivalled(bs) && forall c | c in bs :: !Rivals(b, c)
    ensures Unrivalled([b] + bs)
  {
    var all := [b] + bs;
    forall i, j | 0 <= i < j < |all| ensures !Rivals(all[i], all[j]) {
      assert all[j] == bs[j - 1] && all[j] in bs;
    }
  }

  // ---------------------------------------------------------------------------
  // Leg by leg
  // ---------------------------------------------------------------------------

  /** The bonds' invitees, each named once and none known. */
  ghost predicate FreshInvitees(known: set<Key>, bonds: seq<Live>) {
    && (forall l | l in bonds :: InviteeOf(l.box) !in known)
    && (forall i, j | 0 <= i < j < |bonds| :: InviteeOf(bonds[i].box) != InviteeOf(bonds[j].box))
  }

  lemma {:induction false} GrantsOut(known: set<Key>, height: nat, bonds: seq<Live>)
    requires FreshInvitees(known, bonds)
    ensures OutLeg(known, Grants(height, bonds), 4, 5)
    ensures forall b | b in Grants(height, bonds) :: exists l :: l in bonds && b == GrantOf(height, l.box)
  {
    if bonds != [] {
      GrantsOut(known, height, bonds[1..]);
      var rest := Grants(height, bonds[1..]);
      var first := GrantOf(height, bonds[0].box);
      assert bonds[0] in bonds;
      forall c | c in rest ensures !Rivals(first, c) {
        var l :| l in bonds[1..] && c == GrantOf(height, l.box);
        var i :| 0 <= i < |bonds[1..]| && bonds[1..][i] == l;
        assert bonds[i + 1] == l;
      }
      PrependUnrivalled(first, rest);
    }
  }

  lemma {:induction false} CarriesOut(known: set<Key>, ctx: Ctx, boxes: Boxes, markers: seq<Live>, authors: seq<Key>,
    height: nat)
    requires Distinct(authors)
    ensures var outs := CarryOutputs(height, PayoutsFor(ctx, boxes, markers, authors));
      && OutLeg(known, outs, 5, 6)
      && forall b | b in outs :: b.LikeAccrual? && b.author in authors && b.value < LIKES_PER_KARMA_PAYOUT
  {
    if authors != [] {
      var ps := PayoutsFor(ctx, boxes, markers, authors);
      var rest := CarryOutputs(height, PayoutsFor(ctx, boxes, markers, authors[1..]));
      assert ps[1..] == PayoutsFor(ctx, boxes, markers, authors[1..]);
      DistinctTail(authors);
      CarriesOut(known, ctx, boxes, markers, authors[1..], height);
      if ps[0].carry > 0 {
        PrependUnrivalled(LikeAccrual(ps[0].carry, height, ps[0].author), rest);
      } else {
        assert CarryOutputs(height, ps) == rest;
      }
    }
  }

  ghost predicate PlanOwnersKnown(known: set<Key>, plans: seq<Plan>) {
    forall plan | plan in plans && plan.burn > 0 :: plan.owner in known
  }

  lemma {:induction false} DecaysOut(
    known: set<Key>, ctx: Ctx, s: State, cores: seq<TxCore>, owners: seq<Key>, height: nat)
    requires ValidCtx(ctx) && Distinct(owners)
    requires PlanOwnersKnown(known, PlansFor(ctx, s, cores, owners, height))
    ensures var outs := DecayOutputs(height, PlansFor(ctx, s, cores, owners, height));
      && OutLeg(known, outs, 7, 8)
      && forall b | b in outs :: b.Karma? && !b.income && b.owner in owners
  {
    if owners != [] {
      var plans := PlansFor(ctx, s, cores, owners, height);
      var rest := PlansFor(ctx, s, cores, owners[1..], height);
      DistinctTail(owners);
      assert plans == rest || (plans[1..] == rest && plans[0].owner == owners[0]);
      DecaysOut(known, ctx, s, cores, owners[1..], height);
      if plans != rest && plans[0].burn > 0 {
        assert plans[0] in plans;
        PrependUnrivalled(Karma(plans[0].newValue, height, plans[0].owner, false), DecayOutputs(height, rest));
      } else if plans != rest {
        assert DecayOutputs(height, plans) == DecayOutputs(height, rest);
      }
    }
  }

  lemma {:induction false} IncomesOut(
    known: set<Key>, ctx: Ctx, boxes: Boxes, es: seq<Earning>, spent: set<BoxId>, owners: seq<Key>, height: nat)
    requires Distinct(owners)
    ensures var outs := IncomeOutputs(height, IncomesFor(ctx, boxes, es, spent, owners));
      && OutLeg(known, outs, 8, 9)
      && forall b | b in outs :: b.Karma? && b.income && b.owner in owners
  {
    if owners != [] {
      var ins := IncomesFor(ctx, boxes, es, spent, owners);
      var rest := IncomesFor(ctx, boxes, es, spent, owners[1..]);
      assert ins[1..] == rest;
      DistinctTail(owners);
      IncomesOut(known, ctx, boxes, es, spent, owners[1..], height);
      var value := CarriedValue(ins[0].base) + ins[0].amount;
      if value > 0 {
        PrependUnrivalled(Karma(value, height, ins[0].owner, true), IncomeOutputs(height, rest));
      } else {
        assert IncomeOutputs(height, ins) == IncomeOutputs(height, rest);
      }
    }
  }

  lemma PlacelessOut(known: set<Key>, bs: seq<Box>, k: nat)
    requires forall b | b in bs :: SlotOf(b).None? && ClassOf(known, b) == k
    ensures OutLeg(known, bs, k, k + 1)
  {
    forall i, j | 0 <= i < j < |bs| ensures !Rivals(bs[i], bs[j]) {
      assert bs[i] in bs;
    }
  }
}
