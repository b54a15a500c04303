/** The membership count after a block is the number of members. */
module Closed {
  import opened Wrappers
  import opened Sums
  import opened Orders
  import opened Ledger
  import opened Engine
  import opened Body
  import opened Coinbase
  import opened Queries
  import opened Decay
  import opened Settlement
  import opened Blocks
  import opened Applying
  import opened Invariant
  import opened BodyKeeps
  import opened Closing

  /** The records a block's boxes leave, ready for its grants, counters and pass. */
  ghost predicate Closable(o: Origin, t: State, acc: Acc, height: nat) {
    && height >= 1
    && RecordsOk(o.start.records, height - 1)
    && t.memberCount == MembersOf(o.start.records)
    && Aged(o.start.records, t.records)
    && VouchesCounted(t.boxes, t.records)
    && VouchParties(t.boxes, t.records)
    && VouchersSettled(t.boxes, t.records, height)
    && MidTouched(o, t, acc)
    && forall k | k in acc.invited :: k !in o.start.records && acc.invited[k] in o.start.records
  }

  predicate WasIn(records: Records, k: Key) {
    k in records && IsMember(records[k])
  }

  ghost function OldFlags(before: Records, after: Records): Flags {
    map k | k in after :: WasIn(before, k)
  }

  /** The records after the grants and the counters. */
  ghost predicate Counted(o: Origin, t: State, acc: Acc, records: Records, pre: map<Key, Option<IdentityRecord>>,
    height: nat) {
    && Extends(t.records, records, acc.invited.Keys, height)
    && Uncaptured(acc.pre, pre, acc.invited.Keys)
  }

  // ---------------------------------------------------------------------------
  // Up to the pass
  // ---------------------------------------------------------------------------

  lemma GrantsAllExtend(o: Origin, t: State, acc: Acc, height: nat)
    requires Closable(o, t, acc, height)
    ensures GrantAll(t.records, acc, height).Some?
    ensures var g := GrantAll(t.records, acc, height).value;
      && Extends(t.records, g.0, acc.invited.Keys, height)
      && acc.invited.Keys <= g.0.Keys
      && g.1 == acc.(pre := g.1.pre, touched := acc.touched + acc.invited.Keys)
      && Uncaptured(acc.pre, g.1.pre, acc.invited.Keys)
  {
    var invitees := Ascending(acc.invited.Keys);
    AscendingLists(acc.invited.Keys);
    forall k | k in invitees ensures k in acc.invited && k !in t.records {
      assert k in Members(invitees);
    }
    GrantsExtend(t.records, acc, invitees, height);
    GrantsAccount(t.records, acc, invitees, height);
  }

  lemma CountedUp(o: Origin, t: State, acc: Acc, height: nat)
    requires Closable(o, t, acc, height)
    ensures GrantAll(t.records, acc, height).Some?
    ensures var g := GrantAll(t.records, acc, height).value;
      && Counted(o, t, acc, CreditAll(g.0, g.1), g.1.pre, height)
      && acc.invited.Keys <= CreditAll(g.0, g.1).Keys
      && g.1.touched == acc.touched + acc.invited.Keys
  {
    GrantsAllExtend(o, t, acc, height);
    var g := GrantAll(t.records, acc, height).value;
    CreditsExtend(g.0, g.1, Ascending(g.1.likes.Keys), height);
    ExtendsTransitive(t.records, g.0, CreditAll(g.0, g.1), acc.invited.Keys, height);
  }

  // ---------------------------------------------------------------------------
  // The flags
  // ---------------------------------------------------------------------------

  /** An identity the block neither touched nor invited stands as it did. */
  lemma StandingKept(o: Origin, t: State, acc: Acc, records: Records, height: nat, k: Key)
    requires Closable(o, t, acc, height) && Extends(t.records, records, acc.invited.Keys, height)
    requires k in records && k !in acc.touched && k !in acc.invited
    ensures IsMember(records[k]) == WasIn(o.start.records, k)
  {
    if k in o.start.records {
      assert SameStanding(o.start.records[k], t.records[k]) && SameRank(t.records[k], records[k]);
      assert Unmoved(o.start.records, t.records, k);
    } else {
      assert Fresh(records[k], height, k in acc.invited.Keys);
    }
  }

  lemma FlagIsStanding(o: Origin, t: State, acc: Acc, records: Records, pre: map<Key, Option<IdentityRecord>>,
    height: nat, k: Key)
    requires Closable(o, t, acc, height) && Counted(o, t, acc, records, pre, height) && k in records
    ensures WasMember(pre, records, k) == WasIn(o.start.records, k)
  {
    if k in acc.invited {
      assert k in pre && pre[k] == None;
    } else if k in acc.touched {
      assert CapturedRight(o, acc.pre, k) && pre[k] == acc.pre[k];
    } else {
      assert k !in pre;
      StandingKept(o, t, acc, records, height, k);
    }
  }

  lemma RankBounds(o: Origin, t: State, acc: Acc, records: Records, height: nat, k: Key)
    requires Closable(o, t, acc, height) && Extends(t.records, records, acc.invited.Keys, height) && k in records
    ensures records[k].memberBar >= 0
    ensures 0 <= records[k].memberSinceBlock <= height
    ensures records[k].memberSinceBlock <= 0 ==> !WasIn(o.start.records, k)
  {
    if k in o.start.records {
      assert RecordOk(o.start.records[k], height - 1);
      assert SameStanding(o.start.records[k], t.records[k]) && SameRank(t.records[k], records[k]);
    } else {
      assert Fresh(records[k], height, k in acc.invited.Keys);
    }
  }

  lemma EachJudged(o: Origin, t: State, acc: Acc, records: Records, pre: map<Key, Option<IdentityRecord>>, height: nat,
    id: Key)
    requires Closable(o, t, acc, height) && Counted(o, t, acc, records, pre, height)
    requires VouchesCounted(t.boxes, records)
    ensures Judged(records, pre, OldFlags(o.start.records, records), id)
  {
    if id in records {
      FlagIsStanding(o, t, acc, records, pre, height, id);
      RankBounds(o, t, acc, records, height, id);
      CountsNeverNegative(t.boxes, records, id);
    }
  }

  lemma OldFlagsCount(before: Records, after: Records)
    requires before.Keys <= after.Keys
    ensures MapSum(OldFlags(before, after), FlagWeight()) == MembersOf(before)
  {
    MapSumGrown(before, MemberWeight(), OldFlags(before, after), FlagWeight());
  }

  // ---------------------------------------------------------------------------
  // The pass
  // ---------------------------------------------------------------------------

  /** The pass leaves the count at the number of members, and moves nothing else. */
  lemma PassIsExact(
    ctx: Ctx, o: Origin, t: State, acc: Acc, records: Records, after: Acc, height: nat)
    requires Closable(o, t, acc, height) && Counted(o, t, acc, records, after.pre, height)
    requires VouchesCounted(t.boxes, records)
    requires acc.touched + acc.invited.Keys <= after.touched
    ensures var passed := MembershipPass(ctx, records, t.memberCount, after, height);
      passed.1 == MembersOf(passed.0) && Joined(records, passed.0, height)
  {
    var ids := Ascending(after.touched + after.memberLikes.Keys);
    var flags := OldFlags(o.start.records, records);
    AscendingLists(after.touched + after.memberLikes.Keys);
    forall id | id in ids ensures Judged(records, after.pre, flags, id) {
      EachJudged(o, t, acc, records, after.pre, height, id);
    }
    OldFlagsCount(o.start.records, records);
    var end := PassCounts(records, t.memberCount, after.pre, BarsOf(ctx, t.memberCount), ids, height, flags);
    var passed := MembershipPass(ctx, records, t.memberCount, after, height);
    forall k | k in passed.0 ensures MemberWeight()(passed.0[k]) == FlagWeight()(end[k]) {
      if k !in ids {
        assert k !in Members(ids);
        StandingKept(o, t, acc, records, height, k);
      }
    }
    MapSumGrown(end, FlagWeight(), passed.0, MemberWeight());
  }

  // ---------------------------------------------------------------------------
  // The whole closing
  // ---------------------------------------------------------------------------

  lemma ClocksKeepMembers(before: Records, after: Records, height: int)
    requires Extends(before, after, {}, height)
    ensures MembersOf(after) == MembersOf(before)
  {
    MapSumGrown(before, MemberWeight(), after, MemberWeight());
  }

  /** What an identity known before the block keeps through its closing. */
  predicate StillKnown(r: IdentityRecord, q: IdentityRecord) {
    q.invitedAtBlock == r.invitedAtBlock && (r.memberSinceBlock > 0 ==> q.memberSinceBlock == r.memberSinceBlock)
  }

  ghost predicate ClosedRight(o: Origin, t: State, acc: Acc, u: State, height: nat) {
    && u == t.(records := u.records, memberCount := u.memberCount)
    && RecordsOk(u.records, height)
    && VouchesCounted(u.boxes, u.records)
    && u.memberCount == MembersOf(u.records)
    && (forall k | k in o.start.records :: k in u.records && StillKnown(o.start.records[k], u.records[k]))
    && (forall k | k in acc.invited :: k in u.records && u.records[k].invitedAtBlock == height)
  }

  lemma JoinedFacts(o: Origin, t: State, acc: Acc, records: Records, passed: Records, height: nat)
    requires Closable(o, t, acc, height) && Extends(t.records, records, acc.invited.Keys, height)
    requires acc.invited.Keys <= records.Keys && Joined(records, passed, height)
    ensures RecordsOk(passed, height)
    ensures forall k | k in o.start.records :: k in passed && StillKnown(o.start.records[k], passed[k])
    ensures forall k | k in acc.invited :: k in passed && passed[k].invitedAtBlock == height
  {
    forall k | k in passed ensures RecordOk(passed[k], height) {
      RankBounds(o, t, acc, records, height, k);
      assert MayJoin(records[k], passed[k], height);
    }
    forall k | k in o.start.records ensures k in passed && StillKnown(o.start.records[k], passed[k]) {
      assert SameStanding(o.start.records[k], t.records[k]) && SameRank(t.records[k], records[k]);
      assert MayJoin(records[k], passed[k], height);
    }
    forall k | k in acc.invited ensures k in passed && passed[k].invitedAtBlock == height {
      assert Fresh(records[k], height, true) && MayJoin(records[k], passed[k], height);
    }
  }

  lemma VouchersStaySettled(boxes: Boxes, before: Records, after: Records, invited: set<Key>, height: nat)
    requires VouchersSettled(boxes, before, height) && Extends(before, after, invited, height)
    ensures VouchersSettled(boxes, after, height)
  {
  }

  lemma ClocksFacts(o: Origin, acc: Acc, passed: Records, after: Records, height: nat)
    requires Extends(passed, after, {}, height) && RecordsOk(passed, height)
    requires forall k | k in o.start.records :: k in passed && StillKnown(o.start.records[k], passed[k])
    requires forall k | k in acc.invited :: k in passed && passed[k].invitedAtBlock == height
    ensures RecordsOk(after, height)
    ensures forall k | k in o.start.records :: k in after && StillKnown(o.start.records[k], after[k])
    ensures forall k | k in acc.invited :: k in after && after[k].invitedAtBlock == height
  {
    forall k | k in after ensures RecordOk(after[k], height) {
      if k in passed {
        assert RecordOk(passed[k], height) && SameRank(passed[k], after[k]);
      } else {
        assert Fresh(after[k], height, false);
      }
    }
  }

  /** Closing a block never throws, and leaves every count exact. */
  lemma BlockCloses(ctx: Ctx, o: Origin, t: State, acc: Acc, plans: seq<Plan>, height: nat)
    requires Closable(o, t, acc, height)
    ensures CloseBlock(ctx, t, acc, plans, height).Done?
    ensures ClosedRight(o, t, acc, CloseBlock(ctx, t, acc, plans, height).value, height)
  {
    CountedUp(o, t, acc, height);
    var g := GrantAll(t.records, acc, height).value;
    var records := CreditAll(g.0, g.1);
    var passed := MembershipPass(ctx, records, t.memberCount, g.1, height);
    PassedRight(ctx, o, t, acc, g.0, records, g.1, height);
    ClocksRight(o, t, acc, passed.0, passed.1, plans, height);
  }

  lemma ClocksRight(o: Origin, t: State, acc: Acc, passed: Records, count: int, plans: seq<Plan>, height: nat)
    requires count == MembersOf(passed) && VouchesCounted(t.boxes, passed) && VouchParties(t.boxes, passed)
    requires RecordsOk(passed, height)
    requires forall k | k in o.start.records :: k in passed && StillKnown(o.start.records[k], passed[k])
    requires forall k | k in acc.invited :: k in passed && passed[k].invitedAtBlock == height
    ensures ClosedRight(o, t, acc, t.(records := CommitClocks(passed, plans), memberCount := count), height)
  {
    var after := CommitClocks(passed, plans);
    ClocksExtend(passed, plans, height);
    ClocksKeepMembers(passed, after, height);
    ExtendsKeepsCounts(t.boxes, passed, after, {}, height);
    ClocksFacts(o, acc, passed, after, height);
  }

  lemma PassedRight(ctx: Ctx, o: Origin, t: State, acc: Acc, granted: Records, records: Records, after: Acc,
    height: nat)
    requires Closable(o, t, acc, height) && Counted(o, t, acc, records, after.pre, height)
    requires acc.invited.Keys <= records.Keys && after.touched == acc.touched + acc.invited.Keys
    ensures var passed := MembershipPass(ctx, records, t.memberCount, after, height);
      && passed.1 == MembersOf(passed.0)
      && VouchesCounted(t.boxes, passed.0) && VouchParties(t.boxes, passed.0)
      && RecordsOk(passed.0, height)
      && (forall k | k in o.start.records :: k in passed.0 && StillKnown(o.start.records[k], passed.0[k]))
      && (forall k | k in acc.invited :: k in passed.0 && passed.0[k].invitedAtBlock == height)
  {
    ExtendsKeepsCounts(t.boxes, t.records, records, acc.invited.Keys, height);
    VouchersStaySettled(t.boxes, t.records, records, acc.invited.Keys, height);
    PassIsExact(ctx, o, t, acc, records, after, height);
    var passed := MembershipPass(ctx, records, t.memberCount, after, height);
    JoiningKeepsCounts(t.boxes, records, passed.0, height);
    ExtendedParties(t.boxes, records, passed.0);
    JoinedFacts(o, t, acc, records, passed.0, height);
  }
}
