/** The emission schedule, the coinbase's slices and the backer pool's arithmetic. */
module Coinbase {
  import opened Wrappers
  import opened Sums
  import opened Ledger
  import opened Engine
  import opened Body

  /** A box under the id it is live by. */
  datatype Live = Live(id: BoxId, box: Box)

  // ---------------------------------------------------------------------------
  // Emission
  // ---------------------------------------------------------------------------

  function BlockReward(ctx: Ctx, height: int): (reward: nat)
    requires ValidCtx(ctx)
  {
    if height <= 0 then 0
    else if height <= ctx.creditFixedRateBlocks then CREDIT_INITIAL_REWARD
    else
      var epochs := (height - ctx.creditFixedRateBlocks - 1) / ctx.creditEpochBlocks + 1;
      if CREDIT_INITIAL_REWARD > epochs * CREDIT_REWARD_REDUCTION
      then CREDIT_INITIAL_REWARD - epochs * CREDIT_REWARD_REDUCTION
      else 0
  }

  // ---------------------------------------------------------------------------
  // The slices
  // ---------------------------------------------------------------------------

  datatype Split = Split(treasury: nat, miner: int, unearned: nat)

  function BonusPool(taxable: nat): nat { taxable * COINBASE_BONUS_PCT / 100 }

  function SplitCoinbase(emission: nat, fees: nat, rent: nat, actors: nat, draw: int): Split {
    var bonus := BonusPool(emission + fees);
    var earned := bonus * actors / (actors + INCLUSION_BONUS_K);
    EarnedWithinBonus(bonus, actors);
    var unearned := bonus - earned;
    var treasury := emission * COINBASE_TREASURY_PCT / 100 + fees * COINBASE_TREASURY_PCT / 100;
    Split(treasury, emission + fees + rent - treasury - unearned - draw, unearned)
  }

  lemma EarnedWithinBonus(bonus: nat, actors: nat)
    ensures 0 <= bonus * actors / (actors + INCLUSION_BONUS_K) <= bonus
  {
    var d := actors + INCLUSION_BONUS_K;
    var q := bonus * actors / d;
    assert bonus * actors >= 0;
    assert q * d <= bonus * actors <= bonus * d;
    assert q > bonus ==> (bonus + 1) * d <= q * d;
  }

  // ---------------------------------------------------------------------------
  // The backer pool
  // ---------------------------------------------------------------------------

  datatype Leg = Leg(releases: seq<nat>, staked: int, accrual: nat, draw: nat)

  function Release(supply: nat, accrual: nat, weight: nat): nat {
    if supply > 0 then MulNonNegative(weight, accrual); weight * accrual / supply else 0
  }

  lemma MulNonNegative(a: nat, b: nat)
    ensures a * b >= 0
  {
  }

  function WeightIn(b: Box): nat {
    match b
    case BackerStake(_, _, _, weight) => weight
    case BackerUnstake(_, _, _, weight) => weight
    case _ => 0
  }

  function Unstaked(unstakes: seq<Live>): nat {
    if unstakes == [] then 0 else WeightIn(unstakes[0].box) + Unstaked(unstakes[1..])
  }

  /** One release a marker, in the markers' order. */
  function Releases(supply: nat, accrual: nat, unstakes: seq<Live>): (rs: seq<nat>)
    ensures |rs| == |unstakes|
  {
    if unstakes == [] then []
    else [Release(supply, accrual, WeightIn(unstakes[0].box))] + Releases(supply, accrual, unstakes[1..])
  }

  function Total(ns: seq<nat>): nat {
    if ns == [] then 0 else ns[0] + Total(ns[1..])
  }

  /** What a whole stake of weight one accrues in a block. */
  function Increment(base: nat, supply: nat, staked: int, inWindow: bool): nat {
    if !inWindow then 0
    else if staked <= 0 || 100 * staked <= COINBASE_BACKER_PCT * supply then base
    else
      MulNonNegative(base * COINBASE_BACKER_PCT, supply);
      Quotient(base * COINBASE_BACKER_PCT * supply, 100 * staked)
  }

  function Quotient(n: nat, d: nat): nat
    requires d > 0
  {
    n / d
  }

  function Draw(supply: nat, staked: int, increment: nat): nat {
    if staked > 0 && supply > 0 then
      MulNonNegative(staked, increment);
      (staked * increment + supply - 1) / supply
    else 0
  }

  function BackerLeg(base: nat, supply: nat, staked: nat, accrual: nat, unstakes: seq<Live>, inWindow: bool): Leg {
    var left := staked - Unstaked(unstakes);
    var increment := Increment(base, supply, left, inWindow);
    Leg(Releases(supply, accrual, unstakes), left, accrual + increment, Draw(supply, left, increment))
  }

  /** The draw never passes the backers' percentage of the base, rounded up. */
  lemma DrawBounded(base: nat, supply: nat, staked: int, inWindow: bool)
    ensures Draw(supply, staked, Increment(base, supply, staked, inWindow)) <= (base * COINBASE_BACKER_PCT + 99) / 100
  {
    var inc := Increment(base, supply, staked, inWindow);
    if staked > 0 && supply > 0 {
      var cap := base * COINBASE_BACKER_PCT;
      if !inWindow {
        assert staked * inc == 0;
      } else if 100 * staked <= COINBASE_BACKER_PCT * supply {
        MulMonotone(100 * staked, COINBASE_BACKER_PCT * supply, base);
        Regroup(100, staked, base);
        Regroup(COINBASE_BACKER_PCT, supply, base);
        Regroup(COINBASE_BACKER_PCT, base, supply);
      } else {
        FloorBelow(cap * supply, 100 * staked);
        Regroup(100, staked, inc);
      }
      assert 100 * (staked * inc) <= cap * supply;
      CeilBounded(staked * inc, supply, cap);
    }
  }

  lemma Regroup(a: int, b: int, c: int)
    ensures a * b * c == a * (b * c)
  {
  }

  lemma MulMonotone(a: int, b: int, c: nat)
    requires a <= b
    ensures a * c <= b * c
  {
  }

  lemma FloorBelow(n: int, d: int)
    requires n >= 0 && d > 0
    ensures d * (n / d) <= n < d * (n / d) + d
  {
  }

  lemma CeilBounded(n: nat, supply: nat, cap: nat)
    requires supply > 0 && 100 * n <= cap * supply
    ensures (n + supply - 1) / supply <= (cap + 99) / 100
  {
    var q := (n + supply - 1) / supply;
    var top := (cap + 99) / 100;
    FloorBelow(n + supply - 1, supply);
    MulMonotone(cap, 100 * top, supply);
    assert 100 * n <= 100 * top * supply == 100 * (top * supply);
    assert q > top ==> q * supply >= (top + 1) * supply == top * supply + supply;
  }

  /** The slices add back to the income, and the miner's holds the rent whole. */
  lemma SlicesAddUp(emission: nat, fees: nat, rent: nat, actors: nat, supply: nat, staked: int, inWindow: bool)
    ensures var draw := Draw(supply, staked, Increment(emission + fees, supply, staked, inWindow));
      var split := SplitCoinbase(emission, fees, rent, actors, draw);
      && split.treasury + split.miner + split.unearned + draw == emission + fees + rent
      && split.miner >= rent
  {
    DrawBounded(emission + fees, supply, staked, inWindow);
    EarnedWithinBonus(BonusPool(emission + fees), actors);
    var draw := Draw(supply, staked, Increment(emission + fees, supply, staked, inWindow));
    var split := SplitCoinbase(emission, fees, rent, actors, draw);
    assert split.unearned <= BonusPool(emission + fees);
    assert emission + fees == 0 ==> draw == 0;
  }

  // ---------------------------------------------------------------------------
  // Solvency
  // ---------------------------------------------------------------------------

  /** What the pool holds covers every staked weight's accrual. */
  predicate Solvent(value: int, supply: nat, staked: int, accrual: int) {
    value * supply >= staked * accrual
  }

  lemma {:induction false} ReleasesBounded(supply: nat, accrual: nat, unstakes: seq<Live>)
    requires supply > 0
    ensures Total(Releases(supply, accrual, unstakes)) * supply <= Unstaked(unstakes) * accrual
  {
    if unstakes != [] {
      ReleasesBounded(supply, accrual, unstakes[1..]);
      var w := WeightIn(unstakes[0].box);
      ReleaseBounded(supply, accrual, w);
      assert Releases(supply, accrual, unstakes)[1..] == Releases(supply, accrual, unstakes[1..]);
      Distribute(Release(supply, accrual, w), Total(Releases(supply, accrual, unstakes[1..])), supply);
      Distribute(w, Unstaked(unstakes[1..]), accrual);
    }
  }

  lemma ReleaseBounded(supply: nat, accrual: nat, weight: nat)
    requires supply > 0
    ensures Release(supply, accrual, weight) * supply <= weight * accrual
  {
    MulNonNegative(weight, accrual);
    FloorBelow(weight * accrual, supply);
  }

  lemma Distribute(a: int, b: int, c: int)
    ensures (a + b) * c == a * c + b * c
  {
  }

  /** The draw and the releases of a block keep the pool solvent, so its value never falls below zero. */
  lemma LegKeepsSolvency(value: nat, base: nat, supply: nat, staked: nat, accrual: nat, unstakes: seq<Live>,
    inWindow: bool)
    requires supply > 0 && Unstaked(unstakes) <= staked
    requires Solvent(value, supply, staked, accrual)
    ensures var leg := BackerLeg(base, supply, staked, accrual, unstakes, inWindow);
      var after := value + leg.draw - Total(leg.releases);
      after >= 0 && Solvent(after, supply, leg.staked, leg.accrual)
  {
    var leg := BackerLeg(base, supply, staked, accrual, unstakes, inWindow);
    ReleasesBounded(supply, accrual, unstakes);
    DrawCovers(supply, leg.staked, leg.accrual - accrual);
    SolvencyMoves(value, supply, leg.staked, Unstaked(unstakes), accrual, leg.accrual - accrual, leg.draw,
        Total(leg.releases));
  }

  lemma SolvencyMoves(value: int, supply: nat, left: nat, unstaked: nat, accrual: nat, inc: nat, draw: int,
    released: int)
    requires supply > 0 && value * supply >= (left + unstaked) * accrual
    requires released * supply <= unstaked * accrual
    requires draw * supply >= left * inc
    ensures (value + draw - released) * supply >= left * (accrual + inc)
    ensures value + draw - released >= 0
  {
    var after := value + draw - released;
    Distribute(left, unstaked, accrual);
    Distribute(value + draw, -released, supply);
    Distribute(value, draw, supply);
    Distribute(accrual, inc, left);
    MulNonNegative(left, accrual + inc);
    assert after < 0 ==> after * supply < 0;
  }

  lemma DrawCovers(supply: nat, staked: nat, increment: nat)
    requires supply > 0
    ensures Draw(supply, staked, increment) * supply >= staked * increment
  {
    if staked > 0 {
      FloorBelow(staked * increment + supply - 1, supply);
    }
  }

  // ---------------------------------------------------------------------------
  // The actors
  // ---------------------------------------------------------------------------

  /** Who acted: the karma inputs' owner unless the transaction only consolidates, or the vouch's voucher. */
  function ActorOf(tx: Tx, first: Box): Option<Key> {
    match first
    case Karma(_, _, owner, _) =>
      if tx.core.payload.NoPayload? && (forall b | b in tx.core.outputs :: b.Karma?) then None else Some(owner)
    case Vouch(_, _, voucher, _) => Some(voucher)
    case _ => None
  }

  /** The distinct actors but the block's own validator. */
  function Actors(embedded: seq<(Tx, Box)>, validator: Key): set<Key> {
    set e | e in embedded && ActorOf(e.0, e.1).Some? && ActorOf(e.0, e.1).value != validator :: ActorOf(e.0, e.1).value
  }

  method CountKarmaActors(embedded: seq<(Tx, Box)>, validator: Key) returns (count: nat)
    ensures count == |Actors(embedded, validator)|
  {
    var seen: set<Key> := {};
    for i := 0 to |embedded|
      invariant seen == Actors(embedded[..i], validator)
    {
      var actor := ActorOf(embedded[i].0, embedded[i].1);
      assert embedded[..i + 1] == embedded[..i] + [embedded[i]];
      if actor.Some? && actor.value != validator {
        seen := seen + {actor.value};
      }
    }
    assert embedded[..|embedded|] == embedded;
    count := |seen|;
  }

  /** The backer pool's arithmetic, markers one by one. */
  method ComputeBackerLeg(base: nat, supply: nat, staked: nat, accrual: nat, unstakes: seq<Live>, inWindow: bool)
    returns (leg: Leg)
    ensures leg == BackerLeg(base, supply, staked, accrual, unstakes, inWindow)
  {
    var releases: seq<nat> := [];
    var totalUnstaked := 0;
    for i := 0 to |unstakes|
      invariant releases == Releases(supply, accrual, unstakes[..i])
      invariant totalUnstaked == Unstaked(unstakes[..i])
    {
      assert unstakes[..i + 1] == unstakes[..i] + [unstakes[i]];
      OneMoreUnstake(supply, accrual, unstakes[..i], unstakes[i]);
      releases := releases + [Release(supply, accrual, WeightIn(unstakes[i].box))];
      totalUnstaked := totalUnstaked + WeightIn(unstakes[i].box);
    }
    assert unstakes[..|unstakes|] == unstakes;
    var left := staked - totalUnstaked;
    var increment := Increment(base, supply, left, inWindow);
    leg := Leg(releases, left, accrual + increment, Draw(supply, left, increment));
  }

  lemma {:induction false} OneMoreUnstake(supply: nat, accrual: nat, us: seq<Live>, u: Live)
    ensures Releases(supply, accrual, us + [u]) == Releases(supply, accrual, us)
      + [Release(supply, accrual, WeightIn(u.box))]
    ensures Unstaked(us + [u]) == Unstaked(us) + WeightIn(u.box)
  {
    if us == [] {
      assert us + [u] == [u];
    } else {
      assert (us + [u])[1..] == us[1..] + [u];
      OneMoreUnstake(supply, accrual, us[1..], u);
    }
  }
}
