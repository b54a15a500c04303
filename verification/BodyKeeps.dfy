/** The records, the counts and the accumulator a body of user transactions leaves. */
module BodyKeeps {
  import opened Wrappers
  import opened Sums
  import opened Ledger
  import opened Engine
  import opened Body
  import opened Coinbase
  import opened Decay
  import opened Applying
  import opened Lawful
  import opened Invariant
  import opened BodyRun

  /** The state before the body, every transaction applied by then, and every input the body names. */
  datatype Origin = Origin(start: State, applied: set<TxCore>, inputs: set<BoxId>)

  ghost predicate IsAuthor(posts: map<PostId, PostRecord>, k: Key) {
    exists p :: p in posts && posts[p].author == k
  }

  // ---------------------------------------------------------------------------
  // The boxes' identities
  // ---------------------------------------------------------------------------

  /** As at a block's end, but a new bond's invitee has no record yet and a new marker's author may not. */
  ghost predicate MidRegistered(b: Box, records: Records, posts: map<PostId, PostRecord>) {
    match b
    case Bond(_, _, inviter, _) => inviter in records
    case LikeAccrual(_, _, author) => author in records || IsAuthor(posts, author)
    case _ => Registered(b, records)
  }

  ghost predicate AllMidRegistered(boxes: Boxes, records: Records, posts: map<PostId, PostRecord>) {
    forall id | id in boxes :: MidRegistered(boxes[id], records, posts)
  }

  /** Karma the body creates belongs to an owner whose earlier karma it spends. */
  ghost predicate NewKarmaTouched(o: Origin, now: Boxes) {
    forall id | id in now && id !in o.start.boxes && now[id].Karma? ::
      now[id].owner in TouchedOwners(o.start.boxes, o.inputs)
  }

  lemma MidHasParties(boxes: Boxes, records: Records, posts: map<PostId, PostRecord>)
    requires AllMidRegistered(boxes, records, posts)
    ensures VouchParties(boxes, records)
  {
    forall id | id in boxes ensures PartiesIn(boxes[id], records) {
      assert MidRegistered(boxes[id], records, posts);
    }
  }

  lemma AgedRegistered(b: Box, before: Records, after: Records, posts: map<PostId, PostRecord>)
    requires Aged(before, after) && MidRegistered(b, before, posts)
    ensures MidRegistered(b, after, posts)
  {
    if b.Vouch? {
      assert SameStanding(before[b.voucherId], after[b.voucherId]);
    }
  }

  lemma OutputRegistered(s: State, core: TxCore, b: Box)
    requires OutputsLawful(s, core) && AllMidRegistered(s.boxes, s.records, s.posts)
    requires b in core.outputs
    ensures MidRegistered(b, s.records, s.posts)
  {
    if b.Karma? {
      assert SpendsKarmaOf(s.boxes, core, b.owner);
      var id :| id in core.inputs && id in s.boxes && s.boxes[id].Karma? && s.boxes[id].owner == b.owner;
      assert MidRegistered(s.boxes[id], s.records, s.posts);
    } else if b.VouchEscrow? {
      var id :| id in core.inputs && id in s.boxes && s.boxes[id].Vouch? && s.boxes[id].voucherId == b.owner;
      assert MidRegistered(s.boxes[id], s.records, s.posts);
    }
  }

  lemma StaysRegistered(s: State, core: TxCore, records: Records)
    requires OutputsLawful(s, core) && AllMidRegistered(s.boxes, s.records, s.posts) && Aged(s.records, records)
    ensures AllMidRegistered(AfterTx(s.boxes, core), records, s.posts)
  {
    var after := AfterTx(s.boxes, core);
    forall id | id in after ensures MidRegistered(after[id], records, s.posts) {
      if id in OutputsFrom(core, 0) {
        OutputRegistered(s, core, after[id]);
      }
      AgedRegistered(after[id], s.records, records, s.posts);
    }
  }

  lemma StaysTouched(o: Origin, s: State, core: TxCore)
    requires KarmaLawful(s.boxes, core) && NewKarmaTouched(o, s.boxes)
    requires Members(core.inputs) <= o.inputs
    requires forall id | id in core.inputs && id in o.start.boxes && id in s.boxes :: s.boxes[id] == o.start.boxes[id]
    ensures NewKarmaTouched(o, AfterTx(s.boxes, core))
  {
    var after := AfterTx(s.boxes, core);
    forall id | id in after && id !in o.start.boxes && after[id].Karma?
      ensures after[id].owner in TouchedOwners(o.start.boxes, o.inputs)
    {
      if id in OutputsFrom(core, 0) {
        var b := after[id];
        assert b in core.outputs && SpendsKarmaOf(s.boxes, core, b.owner);
        var j :| j in core.inputs && j in s.boxes && s.boxes[j].Karma? && s.boxes[j].owner == b.owner;
        assert j in Members(core.inputs);
      }
    }
  }

  // ---------------------------------------------------------------------------
  // The records
  // ---------------------------------------------------------------------------

  ghost predicate MidRecords(o: Origin, s: State) {
    && Aged(o.start.records, s.records)
    && VouchesCounted(s.boxes, s.records)
    && s.posts == o.start.posts
    && s.memberCount == o.start.memberCount
  }

  /** What standing reads of a record: the age, the bar and the count. */
  predicate SameMember(r: IdentityRecord, q: IdentityRecord) {
    r.memberSinceBlock == q.memberSinceBlock && r.memberBar == q.memberBar && r.memberVouches == q.memberVouches
  }

  ghost predicate CapturedRight(o: Origin, pre: map<Key, Option<IdentityRecord>>, k: Key) {
    k in pre && pre[k].Some? && k in o.start.records && SameMember(pre[k].value, o.start.records[k])
  }

  /** Each touched identity's standing is held as the block found it; no other's count has moved. */
  ghost predicate MidTouched(o: Origin, s: State, acc: Acc) {
    && acc.pre.Keys == acc.touched
    && (forall k | k in acc.touched :: CapturedRight(o, acc.pre, k))
    && (forall k | k in o.start.records && k !in acc.touched :: Unmoved(o.start.records, s.records, k))
  }

  lemma ActivityKeepsCounts(boxes: Boxes, records: Records, owner: Key, height: int)
    requires owner in records && VouchesCounted(boxes, records)
    ensures Aged(records, AdvanceActivity(records, owner, height))
    ensures VouchesCounted(boxes, AdvanceActivity(records, owner, height))
    ensures forall k :: Unmoved(records, AdvanceActivity(records, owner, height), k)
  {
    var after := AdvanceActivity(records, owner, height);
    forall k | k in after ensures after[k].memberVouches == CountedVouches(boxes, after, k) {
      SameAgesSameCount(boxes, records, after, k);
    }
  }

  lemma TargetsSpared(boxes: Boxes, core: TxCore, bs: seq<Box>, k: Key)
    requires InputsLive(boxes, core.inputs) && bs == ValuesAt(boxes, core.inputs)
    requires k !in VouchTargets(bs, core.outputs)
    ensures SparesTarget(boxes, core.inputs, k) && MakesNoneFor(core.outputs, k)
  {
    ValuesInRange(boxes, core.inputs, bs);
  }

  lemma TargetsKnown(s: State, core: TxCore, bs: seq<Box>, k: Key)
    requires InputsLive(s.boxes, core.inputs) && bs == ValuesAt(s.boxes, core.inputs)
    requires VouchParties(s.boxes, s.records) && VouchLawful(s, core)
    requires k in VouchTargets(bs, core.outputs)
    ensures k in s.records
  {
    ValuesInRange(s.boxes, core.inputs, bs);
    if b :| b in bs && b.Vouch? && b.targetId == k {
      var id :| id in core.inputs && s.boxes[id] == b;
      assert PartiesIn(s.boxes[id], s.records);
    }
  }

  lemma StaysCaptured(o: Origin, s: State, acc: Acc, core: TxCore, bs: seq<Box>, records: Records)
    requires InputsLive(s.boxes, core.inputs) && bs == ValuesAt(s.boxes, core.inputs)
    requires MidRecords(o, s) && MidTouched(o, s, acc)
    requires VouchParties(s.boxes, s.records) && VouchLawful(s, core)
    requires forall k | SparesTarget(s.boxes, core.inputs, k) && MakesNoneFor(core.outputs, k) ::
      Unmoved(s.records, records, k)
    ensures var targets := VouchTargets(bs, core.outputs);
      MidTouched(o, s.(records := records), acc.(touched := acc.touched + targets,
          pre := CapturePre(acc.pre, s.records, targets)))
  {
    var targets := VouchTargets(bs, core.outputs);
    var pre := CapturePre(acc.pre, s.records, targets);
    forall k | k in acc.touched + targets ensures CapturedRight(o, pre, k) {
      if k in acc.touched {
        assert CapturedRight(o, acc.pre, k);
      } else {
        TargetsKnown(s, core, bs, k);
        assert SameStanding(o.start.records[k], s.records[k]) && Unmoved(o.start.records, s.records, k);
      }
    }
    forall k | k in o.start.records && k !in acc.touched + targets ensures Unmoved(o.start.records, records, k) {
      TargetsSpared(s.boxes, core, bs, k);
      assert Unmoved(o.start.records, s.records, k) && Unmoved(s.records, records, k);
    }
  }

  // ---------------------------------------------------------------------------
  // The invitees
  // ---------------------------------------------------------------------------

  ghost predicate CreatesBond(done: seq<TxCore>, id: BoxId, invitee: Key) {
    IsCreated(done, id) && id.creator.outputs[id.index].Bond? && id.creator.outputs[id.index].inviteePublicKey
        == invitee
  }

  /** The accumulator pairs each bond's invitee with its inviter, and each invitee has one bond. */
  ghost predicate MidInvited(o: Origin, done: seq<TxCore>, acc: Acc) {
    && (forall k | k in acc.invited :: k !in o.start.records && acc.invited[k] in o.start.records)
    && (forall k | k in acc.invited :: exists id :: CreatesBond(done, id, k))
    && (forall id, k | CreatesBond(done, id, k) :: k in acc.invited)
    && (forall i, j, k | CreatesBond(done, i, k) && CreatesBond(done, j, k) :: i == j)
  }

  ghost predicate BondIn(core: TxCore, id: BoxId, invitee: Key) {
    id in OutputsFrom(core, 0) && core.outputs[id.index].Bond? && core.outputs[id.index].inviteePublicKey == invitee
  }

  lemma BondSnoc(done: seq<TxCore>, core: TxCore, id: BoxId, k: Key)
    ensures CreatesBond(done + [core], id, k) <==> CreatesBond(done, id, k) || BondIn(core, id, k)
  {
    CreatedSnoc(done, core, id);
  }

  ghost function InvitedAfter(acc: Acc, outputs: seq<Box>): map<Key, Key> {
    if CountOf(outputs, IsBond) > 0
    then acc.invited[FirstOf(outputs, IsBond).inviteePublicKey := FirstOf(outputs, IsBond).inviterId]
    else acc.invited
  }

  lemma OneBond(s: State, core: TxCore, id: BoxId, k: Key)
    requires BondLawful(s, core) && BondIn(core, id, k)
    ensures CountOf(core.outputs, IsBond) > 0 && FirstOf(core.outputs, IsBond).inviteePublicKey == k
    ensures forall j, q | BondIn(core, j, q) :: j == id && q == k
  {
    var outputs := core.outputs;
    CountedExists(outputs, IsBond);
    assert IsBond(outputs[id.index]);
    var first := FirstOf(outputs, IsBond);
    var f :| 0 <= f < |outputs| && outputs[f] == first;
    AtMostOneIs(outputs, IsBond, f, id.index);
    forall j, q | BondIn(core, j, q) ensures j == id && q == k {
      AtMostOneIs(outputs, IsBond, j.index, id.index);
    }
  }

  lemma AtMostOneIs(bs: seq<Box>, p: Box -> bool, i: nat, j: nat)
    requires AtMostOne(bs, p) && i < |bs| && j < |bs| && p(bs[i]) && p(bs[j])
    ensures i == j
  {
  }

  lemma FirstBond(core: TxCore) returns (id: BoxId)
    requires CountOf(core.outputs, IsBond) > 0
    ensures BondIn(core, id, FirstOf(core.outputs, IsBond).inviteePublicKey)
  {
    var first := FirstOf(core.outputs, IsBond);
    var f :| 0 <= f < |core.outputs| && core.outputs[f] == first;
    id := Out(core, f);
  }

  lemma StaysInvited(o: Origin, done: seq<TxCore>, s: State, acc: Acc, core: TxCore)
    requires MidInvited(o, done, acc) && BondLawful(s, core) && InviteeIsNew(acc, core.outputs)
    requires Aged(o.start.records, s.records)
    ensures MidInvited(o, done + [core], acc.(invited := InvitedAfter(acc, core.outputs)))
  {
    var all, invited := done + [core], InvitedAfter(acc, core.outputs);
    InvitedHaveBonds(o, done, s, acc, core);
    forall id, k | CreatesBond(all, id, k) ensures k in invited {
      BondSnoc(done, core, id, k);
      if BondIn(core, id, k) {
        OneBond(s, core, id, k);
      }
    }
    forall i, j, k | CreatesBond(all, i, k) && CreatesBond(all, j, k) ensures i == j {
      BondSnoc(done, core, i, k);
      BondSnoc(done, core, j, k);
      if BondIn(core, i, k) {
        OneBond(s, core, i, k);
      } else if BondIn(core, j, k) {
        OneBond(s, core, j, k);
      }
    }
  }

  lemma InvitedHaveBonds(o: Origin, done: seq<TxCore>, s: State, acc: Acc, core: TxCore)
    requires MidInvited(o, done, acc) && BondLawful(s, core) && Aged(o.start.records, s.records)
    ensures var invited := InvitedAfter(acc, core.outputs);
      && (forall k | k in invited :: k !in o.start.records && invited[k] in o.start.records)
      && (forall k | k in invited :: exists id :: CreatesBond(done + [core], id, k))
  {
    var all, invited := done + [core], InvitedAfter(acc, core.outputs);
    if CountOf(core.outputs, IsBond) > 0 {
      var bond := FirstOf(core.outputs, IsBond);
      var id := FirstBond(core);
      assert bond in core.outputs && bond.inviterId in s.records && bond.inviteePublicKey !in s.records;
      BondSnoc(done, core, id, bond.inviteePublicKey);
    }
    forall k | k in invited ensures exists id :: CreatesBond(all, id, k) {
      if k in acc.invited {
        var id :| CreatesBond(done, id, k);
        BondSnoc(done, core, id, k);
      }
    }
  }
}
