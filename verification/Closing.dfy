/** The records after the settlement: grants, like counters, the membership pass, the decay clocks. */
module Closing {
  import opened Wrappers
  import opened Sums
  import opened Orders
  import opened Ledger
  import opened Engine
  import opened Body
  import opened Coinbase
  import opened Queries
  import opened Decay
  import opened Settlement
  import opened Blocks
  import opened Applying
  import opened Invariant

  // ---------------------------------------------------------------------------
  // Stages
  // ---------------------------------------------------------------------------

  predicate SameRank(r: IdentityRecord, q: IdentityRecord) {
    && r.memberSinceBlock == q.memberSinceBlock && r.memberBar == q.memberBar
    && r.memberVouches == q.memberVouches && r.invitedAtBlock == q.invitedAtBlock
  }

  /** A record the block first wrote: nothing vouched, and an age only a root's grant confers. */
  predicate Fresh(r: IdentityRecord, height: int, invited: bool) {
    && r.memberVouches == 0 && r.memberBar == 0
    && (r.memberSinceBlock == 0 || (invited && r.memberSinceBlock == height))
    && (invited ==> r.invitedAtBlock == height)
  }

  /** Every rank kept, and new records fresh. */
  ghost predicate Extends(before: Records, after: Records, invited: set<Key>, height: int) {
    && before.Keys <= after.Keys
    && (forall k | k in before :: SameRank(before[k], after[k]))
    && (forall k | k in after && k !in before :: Fresh(after[k], height, k in invited))
  }

  lemma ExtendsTransitive(a: Records, b: Records, c: Records, invited: set<Key>, height: int)
    requires Extends(a, b, invited, height) && Extends(b, c, {}, height) && invited <= b.Keys
    ensures Extends(a, c, invited, height)
  {
  }

  // ---------------------------------------------------------------------------
  // Grants
  // ---------------------------------------------------------------------------

  ghost predicate InvitersKnown(records: Records, invited: map<Key, Key>) {
    forall k | k in invited :: invited[k] in records
  }

  /** What the grants leave of the records, invitee by invitee. */
  lemma {:induction false} GrantsExtend(records: Records, acc: Acc, invitees: seq<Key>, height: nat)
    requires Distinct(invitees) && forall k | k in invitees :: k in acc.invited && k !in records
    requires InvitersKnown(records, acc.invited)
    ensures GrantEach(records, acc, invitees, height).Some?
    ensures var g := GrantEach(records, acc, invitees, height).value;
      && Extends(records, g.0, Members(invitees), height)
      && g.0.Keys == records.Keys + Members(invitees)
    decreases |invitees|
  {
    if invitees == [] {
      assert Members(invitees) == {};
    } else {
      var k := invitees[0];
      var next := Grant(records, acc, k, height).value;
      GrantOne(records, acc, k, height);
      GrantRest(records, next.0, next.1, invitees, height);
      assert GrantEach(records, acc, invitees, height) == GrantEach(next.0, next.1, invitees[1..], height);
    }
  }

  lemma {:induction false} GrantRest(records: Records, next: Records, acc: Acc, invitees: seq<Key>, height: nat)
    requires invitees != [] && Distinct(invitees) && forall k | k in invitees :: k in acc.invited && k !in records
    requires InvitersKnown(next, acc.invited)
    requires Extends(records, next, {invitees[0]}, height) && next.Keys == records.Keys + {invitees[0]}
    ensures GrantEach(next, acc, invitees[1..], height).Some?
    ensures var g := GrantEach(next, acc, invitees[1..], height).value;
      && Extends(records, g.0, Members(invitees), height)
      && g.0.Keys == records.Keys + Members(invitees)
    decreases |invitees|, 0
  {
    DistinctTail(invitees);
    assert Members(invitees) == {invitees[0]} + Members(invitees[1..]);
    GrantsExtend(next, acc, invitees[1..], height);
    ExtendsTwice(records, next, GrantEach(next, acc, invitees[1..], height).value.0, {invitees[0]},
        Members(invitees[1..]), height);
  }

  ghost predicate Uncaptured(before: map<Key, Option<IdentityRecord>>, after: map<Key, Option<IdentityRecord>>,
    invitees: set<Key>) {
    && after.Keys == before.Keys + invitees
    && forall k | k in after :: after[k] == if k in invitees then None else before[k]
  }

  /** An invitee's capture is its absence. */
  lemma {:induction false} GrantsAccount(records: Records, acc: Acc, invitees: seq<Key>, height: nat)
    requires forall k | k in invitees :: k in acc.invited
    requires GrantEach(records, acc, invitees, height).Some?
    ensures var after := GrantEach(records, acc, invitees, height).value.1;
      && after == acc.(pre := after.pre, touched := acc.touched + Members(invitees))
      && Uncaptured(acc.pre, after.pre, Members(invitees))
    decreases |invitees|
  {
    if invitees == [] {
      assert Members(invitees) == {};
    } else {
      var next := Grant(records, acc, invitees[0], height).value;
      assert Members(invitees) == {invitees[0]} + Members(invitees[1..]);
      GrantsAccount(next.0, next.1, invitees[1..], height);
      assert acc.touched + {invitees[0]} + Members(invitees[1..]) == acc.touched + Members(invitees);
    }
  }

  lemma GrantOne(records: Records, acc: Acc, k: Key, height: nat)
    requires k in acc.invited && k !in records && acc.invited[k] in records
    ensures Grant(records, acc, k, height).Some?
    ensures Extends(records, Grant(records, acc, k, height).value.0, {k}, height)
  {
  }

  lemma ExtendsTwice(a: Records, b: Records, c: Records, first: set<Key>, rest: set<Key>, height: int)
    requires Extends(a, b, first, height) && Extends(b, c, rest, height)
    requires b.Keys == a.Keys + first && rest !! b.Keys
    ensures Extends(a, c, first + rest, height)
  {
  }

  // ---------------------------------------------------------------------------
  // Counters and clocks
  // ---------------------------------------------------------------------------

  lemma {:induction false} CreditsExtend(records: Records, acc: Acc, authors: seq<Key>, height: int)
    ensures Extends(records, CreditEach(records, acc, authors), {}, height)
    decreases |authors|
  {
    if authors != [] {
      var next := CreditLikes(records, acc, authors[0]);
      CreditsExtend(next, acc, authors[1..], height);
      ExtendsTransitive(records, next, CreditEach(records, acc, authors), {}, height);
    }
  }

  lemma {:induction false} ClocksExtend(records: Records, plans: seq<Plan>, height: int)
    ensures Extends(records, CommitClocks(records, plans), {}, height)
    decreases |plans|
  {
    if plans != [] {
      var next := CommitClock(records, plans[0]);
      ClocksExtend(next, plans[1..], height);
      ExtendsTransitive(records, next, CommitClocks(records, plans), {}, height);
    }
  }

  // ---------------------------------------------------------------------------
  // Counted vouches
  // ---------------------------------------------------------------------------

  ghost predicate AgesKept(before: Records, after: Records) {
    before.Keys <= after.Keys && forall k | k in before :: after[k].memberSinceBlock == before[k].memberSinceBlock
  }

  lemma CountsCarryOver(boxes: Boxes, before: Records, after: Records, k: Key)
    requires VouchParties(boxes, before) && AgesKept(before, after)
    ensures CountedVouches(boxes, after, k) == CountedVouches(boxes, before, k)
  {
    forall id | id in boxes ensures VouchWeight(after, k)(boxes[id]) == VouchWeight(before, k)(boxes[id]) {
      assert PartiesIn(boxes[id], before);
    }
    MapSumSame(boxes, VouchWeight(after, k), VouchWeight(before, k));
  }

  lemma NoneTargetsNewcomer(boxes: Boxes, records: Records, k: Key)
    requires VouchParties(boxes, records) && k !in records
    ensures CountedVouches(boxes, records, k) == 0
  {
    forall id | id in boxes ensures VouchWeight(records, k)(boxes[id]) == 0 {
      assert PartiesIn(boxes[id], records);
    }
    MapSumZero(boxes, VouchWeight(records, k));
  }

  lemma {:induction false} MapSumZero(boxes: Boxes, w: Box -> int)
    requires forall id | id in boxes :: w(boxes[id]) == 0
    ensures MapSum(boxes, w) == 0
  {
    var none: Boxes := map[];
    MapSumGrown(none, w, boxes, w);
  }

  lemma ExtendedParties(boxes: Boxes, before: Records, after: Records)
    requires VouchParties(boxes, before) && before.Keys <= after.Keys
    ensures VouchParties(boxes, after)
  {
    forall id | id in boxes ensures PartiesIn(boxes[id], after) {
      assert PartiesIn(boxes[id], before);
    }
  }

  lemma ExtendsKeepsCounts(boxes: Boxes, before: Records, after: Records, invited: set<Key>, height: int)
    requires VouchParties(boxes, before) && VouchesCounted(boxes, before) && Extends(before, after, invited, height)
    ensures VouchesCounted(boxes, after) && VouchParties(boxes, after)
  {
    ExtendedParties(boxes, before, after);
    forall k | k in after ensures after[k].memberVouches == CountedVouches(boxes, after, k) {
      CountsCarryOver(boxes, before, after, k);
      if k !in before {
        NoneTargetsNewcomer(boxes, before, k);
      }
    }
  }

  /** Every voucher's age is set, and from before this block. */
  ghost predicate VouchersSettled(boxes: Boxes, records: Records, height: int) {
    forall id | id in boxes && boxes[id].Vouch? ::
      boxes[id].voucherId in records && 0 < records[boxes[id].voucherId].memberSinceBlock < height
  }

  /** Some become members now; nothing else moves. */
  predicate MayJoin(r: IdentityRecord, q: IdentityRecord, height: int) {
    q == r || (r.memberSinceBlock == 0 && q.memberBar >= 1 && q
        == r.(memberSinceBlock := height, memberBar := q.memberBar))
  }

  ghost predicate Joined(before: Records, after: Records, height: int) {
    before.Keys == after.Keys && forall k | k in before :: MayJoin(before[k], after[k], height)
  }

  /** A vouch counted at its cast stays counted when its target becomes a member. */
  lemma JoiningKeepsCounts(boxes: Boxes, before: Records, after: Records, height: int)
    requires VouchParties(boxes, before) && VouchesCounted(boxes, before)
    requires VouchersSettled(boxes, before, height) && Joined(before, after, height)
    ensures VouchesCounted(boxes, after)
  {
    forall k | k in after ensures after[k].memberVouches == CountedVouches(boxes, after, k) {
      JoinerKeepsCount(boxes, before, after, height, k);
      assert MayJoin(before[k], after[k], height);
    }
  }

  lemma JoinerKeepsCount(boxes: Boxes, before: Records, after: Records, height: int, k: Key)
    requires VouchParties(boxes, before) && k in before
    requires VouchersSettled(boxes, before, height) && Joined(before, after, height)
    ensures CountedVouches(boxes, after, k) == CountedVouches(boxes, before, k)
  {
    forall id | id in boxes ensures VouchWeight(after, k)(boxes[id]) == VouchWeight(before, k)(boxes[id]) {
      var b := boxes[id];
      assert PartiesIn(b, before);
      if b.Vouch? && b.targetId == k {
        assert MayJoin(before[b.voucherId], after[b.voucherId], height) && MayJoin(before[k], after[k], height);
      }
    }
    MapSumSame(boxes, VouchWeight(after, k), VouchWeight(before, k));
  }

  // ---------------------------------------------------------------------------
  // The membership pass
  // ---------------------------------------------------------------------------

  type Flags = map<Key, bool>

  ghost function FlagWeight(): bool -> int { (b: bool) => if b then 1 else 0 }

  ghost predicate WasMember(pre: map<Key, Option<IdentityRecord>>, records: Records, id: Key) {
    var before := PreRecord(pre, records, id);
    before.Some? && IsMember(before.value)
  }

  /** What the pass reads of an identity, and what the count holds it for. */
  ghost predicate Judged(records: Records, pre: map<Key, Option<IdentityRecord>>, flags: Flags, id: Key) {
    id in records ==>
      && id in flags && flags[id] == WasMember(pre, records, id)
      && records[id].memberBar >= 0 && records[id].memberVouches >= 0
      && (records[id].memberSinceBlock <= 0 ==> !flags[id])
  }

  ghost function Reflag(flags: Flags, records: Records, id: Key): Flags {
    if id in records then flags[id := IsMember(records[id])] else flags
  }

  lemma PassOneCounts(
    records: Records, count: int, pre: map<Key, Option<IdentityRecord>>, bars: Bars, id: Key, height: nat, flags: Flags)
    requires Judged(records, pre, flags, id) && count == MapSum(flags, FlagWeight())
    requires height >= 1 && bars.vouches >= 1
    ensures var next := PassOne(records, count, pre, bars, id, height);
      && next.1 == MapSum(Reflag(flags, next.0, id), FlagWeight())
      && Joined(records, next.0, height)
      && forall k | k in records && k != id :: next.0[k] == records[k]
  {
    var next := PassOne(records, count, pre, bars, id, height);
    if id in records {
      MapSumUpdate(flags, FlagWeight(), id, IsMember(next.0[id]));
    }
  }

  lemma JoinedTransitive(a: Records, b: Records, c: Records, height: int)
    requires Joined(a, b, height) && Joined(b, c, height) && height >= 1
    ensures Joined(a, c, height)
  {
  }

  /** The pass's count is exactly what the flags become: member for each identity it looked at. */
  lemma {:induction false} PassCounts(
    records: Records, count: int, pre: map<Key, Option<IdentityRecord>>, bars: Bars, ids: seq<Key>, height: nat,
    flags: Flags)
    returns (after: Flags)
    requires Distinct(ids) && forall id | id in ids :: Judged(records, pre, flags, id)
    requires flags.Keys == records.Keys && count == MapSum(flags, FlagWeight())
    requires height >= 1 && bars.vouches >= 1
    ensures var out := PassEach(records, count, pre, bars, ids, height);
      && out.1 == MapSum(after, FlagWeight())
      && Joined(records, out.0, height)
      && after.Keys == records.Keys
      && (forall k | k in records && k !in ids :: out.0[k] == records[k] && after[k] == flags[k])
      && (forall k | k in records && k in ids :: after[k] == IsMember(out.0[k]))
    decreases |ids|
  {
    if ids == [] {
      after := flags;
    } else {
      var id := ids[0];
      var next := PassOne(records, count, pre, bars, id, height);
      PassOneCounts(records, count, pre, bars, id, height, flags);
      DistinctTail(ids);
      var mid := Reflag(flags, next.0, id);
      forall k | k in ids[1..] ensures Judged(next.0, pre, mid, k) {
        assert k != id && Judged(records, pre, flags, k);
      }
      after := PassCounts(next.0, next.1, pre, bars, ids[1..], height, mid);
      JoinedTransitive(records, next.0, PassEach(records, count, pre, bars, ids, height).0, height);
    }
  }
}
