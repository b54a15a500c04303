/** What applying a transaction does to the boxes, the sums, the ids and the vouch counts. */
module Applying {
  import opened Wrappers
  import opened Sums
  import opened Ledger
  import opened Body

  // ---------------------------------------------------------------------------
  // Records
  // ---------------------------------------------------------------------------

  /** The same identities, moved at most in their activity clock, vouch count and spent invites. */
  ghost predicate Aged(before: Records, after: Records) {
    && before.Keys == after.Keys
    && forall k | k in before :: SameStanding(before[k], after[k])
  }

  predicate SameStanding(r: IdentityRecord, q: IdentityRecord) {
    q == r.(lastActivityBlock := q.lastActivityBlock, memberVouches := q.memberVouches, invitesUsed := q.invitesUsed)
  }

  lemma AgedTransitive(a: Records, b: Records, c: Records)
    requires Aged(a, b) && Aged(b, c)
    ensures Aged(a, c)
  {
  }

  ghost predicate PartiesIn(b: Box, records: Records) {
    b.Vouch? ==> b.voucherId in records && b.targetId in records
  }

  ghost predicate VouchParties(boxes: Boxes, records: Records) {
    forall id | id in boxes :: PartiesIn(boxes[id], records)
  }

  /** Each record's count is the number of live vouches that count toward it. */
  ghost predicate VouchesCounted(boxes: Boxes, records: Records) {
    forall k | k in records :: records[k].memberVouches == CountedVouches(boxes, records, k)
  }

  lemma CountsNeverNegative(boxes: Boxes, records: Records, k: Key)
    requires VouchesCounted(boxes, records) && k in records
    ensures records[k].memberVouches >= 0
  {
    if boxes != map[] {
      var id :| id in boxes;
      MapSumBounds(boxes, VouchWeight(records, k), id);
    }
  }

  /** Ages and presence alone decide what counts. */
  lemma SameAgesSameCount(boxes: Boxes, before: Records, after: Records, k: Key)
    requires Aged(before, after)
    ensures CountedVouches(boxes, after, k) == CountedVouches(boxes, before, k)
  {
    forall id | id in boxes ensures VouchWeight(after, k)(boxes[id]) == VouchWeight(before, k)(boxes[id]) {
      var b := boxes[id];
      if b.Vouch? && b.targetId == k && b.voucherId in before && k in before {
        assert SameStanding(before[b.voucherId], after[b.voucherId]) && SameStanding(before[k], after[k]);
      }
    }
    MapSumSame(boxes, VouchWeight(after, k), VouchWeight(before, k));
  }

  /** What a vouch weighs toward its target, or nothing for any other box and identity. */
  ghost function Weight(records: Records, b: Box, k: Key): int { VouchWeight(records, k)(b) }

  lemma AdjustedCount(records: Records, vouch: Box, delta: int)
    requires vouch.Vouch? && PartiesIn(vouch, records)
    ensures AdjustVouchCount(records, vouch, delta).Some?
    ensures var after := AdjustVouchCount(records, vouch, delta).value;
      && Aged(records, after)
      && forall k | k in records ::
        after[k].memberVouches == records[k].memberVouches + delta * Weight(records, vouch, k)
  {
  }

  ghost predicate Unmoved(before: Records, after: Records, k: Key) {
    k in before ==> k in after && after[k].memberVouches == before[k].memberVouches
  }

  // ---------------------------------------------------------------------------
  // One box
  // ---------------------------------------------------------------------------

  lemma ConsumeEffect(s: State, id: BoxId)
    requires id in s.boxes && VouchParties(s.boxes, s.records) && VouchesCounted(s.boxes, s.records)
    ensures ConsumeOne(s, id).Some?
    ensures var t := ConsumeOne(s, id).value;
      && t.boxes == s.boxes - {id}
      && Aged(s.records, t.records)
      && VouchParties(t.boxes, t.records)
      && VouchesCounted(t.boxes, t.records)
      && forall k | !(s.boxes[id].Vouch? && s.boxes[id].targetId == k) :: Unmoved(s.records, t.records, k)
  {
    var b := s.boxes[id];
    if b.Vouch? {
      AdjustedCount(s.records, b, -1);
    }
    var t := ConsumeOne(s, id).value;
    forall k | k in t.records ensures t.records[k].memberVouches == CountedVouches(t.boxes, t.records, k) {
      MapSumRemove(s.boxes, VouchWeight(s.records, k), id);
      SameAgesSameCount(t.boxes, s.records, t.records, k);
    }
    forall j | j in t.boxes ensures PartiesIn(t.boxes[j], t.records) {
      assert PartiesIn(s.boxes[j], s.records);
    }
  }

  lemma InsertedRecords(s: State, taken: set<BoxId>, id: BoxId, box: Box)
    requires id !in taken && PartiesIn(box, s.records)
    ensures InsertOne(s, taken, id, box).Some?
    ensures var t := InsertOne(s, taken, id, box).value;
      && t.boxes == s.boxes[id := box]
      && Aged(s.records, t.records)
      && forall k | k in s.records ::
        t.records[k].memberVouches == s.records[k].memberVouches + Weight(s.records, box, k)
  {
    if box.Vouch? {
      AdjustedCount(s.records, box, 1);
    }
  }

  lemma InsertEffect(s: State, taken: set<BoxId>, id: BoxId, box: Box)
    requires id !in taken && id !in s.boxes && PartiesIn(box, s.records)
    requires VouchParties(s.boxes, s.records) && VouchesCounted(s.boxes, s.records)
    ensures InsertOne(s, taken, id, box).Some?
    ensures var t := InsertOne(s, taken, id, box).value;
      && t.boxes == s.boxes[id := box]
      && Aged(s.records, t.records)
      && VouchParties(t.boxes, t.records)
      && VouchesCounted(t.boxes, t.records)
      && forall k | !(box.Vouch? && box.targetId == k) :: Unmoved(s.records, t.records, k)
  {
    InsertedRecords(s, taken, id, box);
    var t := InsertOne(s, taken, id, box).value;
    forall k | k in t.records ensures t.records[k].memberVouches == CountedVouches(t.boxes, t.records, k) {
      MapSumInsert(s.boxes, VouchWeight(s.records, k), id, box);
      SameAgesSameCount(t.boxes, s.records, t.records, k);
    }
    forall j | j in t.boxes ensures PartiesIn(t.boxes[j], t.records) {
      assert j != id ==> PartiesIn(s.boxes[j], s.records);
    }
  }

  // ---------------------------------------------------------------------------
  // One transaction
  // ---------------------------------------------------------------------------

  ghost predicate SparesTarget(boxes: Boxes, ids: seq<BoxId>, k: Key) {
    forall id | id in ids && id in boxes :: !(boxes[id].Vouch? && boxes[id].targetId == k)
  }

  ghost predicate MakesNoneFor(outputs: seq<Box>, k: Key) {
    forall b | b in outputs :: !(b.Vouch? && b.targetId == k)
  }

  lemma {:induction false} ConsumeAllEffect(s: State, ids: seq<BoxId>)
    requires Distinct(ids) && forall id | id in ids :: id in s.boxes
    requires VouchParties(s.boxes, s.records) && VouchesCounted(s.boxes, s.records)
    ensures ConsumeAll(s, ids).Some?
    ensures var t := ConsumeAll(s, ids).value;
      && t.boxes == s.boxes - Members(ids)
      && Aged(s.records, t.records)
      && VouchParties(t.boxes, t.records)
      && VouchesCounted(t.boxes, t.records)
      && forall k | SparesTarget(s.boxes, ids, k) :: Unmoved(s.records, t.records, k)
    decreases |ids|
  {
    if ids == [] {
      assert s.boxes - Members(ids) == s.boxes;
    } else {
      ConsumeEffect(s, ids[0]);
      var n := ConsumeOne(s, ids[0]).value;
      DistinctTail(ids);
      ConsumeAllEffect(n, ids[1..]);
      RemovedOneByOne(s.boxes, ids);
      var t := ConsumeAll(s, ids).value;
      AgedTransitive(s.records, n.records, t.records);
      forall k | SparesTarget(s.boxes, ids, k) ensures Unmoved(s.records, t.records, k) {
        assert ids[0] in ids;
        assert Unmoved(s.records, n.records, k);
        assert SparesTarget(n.boxes, ids[1..], k);
      }
    }
  }

  /** The outputs from index `i` on, under their ids. */
  function OutputsFrom(core: TxCore, i: nat): (m: Boxes)
    ensures forall id :: id in m <==> id.Out? && id.creator == core && i <= id.index < |core.outputs|
    ensures forall id | id in m :: m[id] == core.outputs[id.index]
  {
    map j | i <= j < |core.outputs| :: Out(core, j) := core.outputs[j]
  }

  /** No output from index `i` on is under one of these ids. */
  ghost predicate FreshFrom(core: TxCore, i: nat, ids: set<BoxId>) {
    forall j | i <= j < |core.outputs| :: Out(core, j) !in ids
  }

  lemma FirstOutput(core: TxCore, i: nat)
    requires i < |core.outputs|
    ensures map[Out(core, i) := core.outputs[i]] + OutputsFrom(core, i + 1) == OutputsFrom(core, i)
  {
  }

  lemma OneMoreOutput(boxes: Boxes, core: TxCore, i: nat)
    requires i < |core.outputs|
    ensures boxes[Out(core, i) := core.outputs[i]] + OutputsFrom(core, i + 1) == boxes + OutputsFrom(core, i)
  {
    var first := map[Out(core, i) := core.outputs[i]];
    FirstOutput(core, i);
    assert boxes[Out(core, i) := core.outputs[i]] == boxes + first;
    JoinAssociates(boxes, first, OutputsFrom(core, i + 1));
  }

  lemma JoinAssociates(a: Boxes, b: Boxes, c: Boxes)
    ensures (a + b) + c == a + (b + c)
  {
  }

  lemma {:induction false} InsertFromEffect(s: State, taken: set<BoxId>, core: TxCore, i: nat)
    requires i <= |core.outputs|
    requires FreshFrom(core, i, taken) && FreshFrom(core, i, s.boxes.Keys)
    requires forall b | b in core.outputs :: PartiesIn(b, s.records)
    requires VouchParties(s.boxes, s.records) && VouchesCounted(s.boxes, s.records)
    ensures InsertFrom(s, taken, core, i).Some?
    ensures var t := InsertFrom(s, taken, core, i).value;
      && t.boxes == s.boxes + OutputsFrom(core, i)
      && Aged(s.records, t.records)
      && VouchParties(t.boxes, t.records)
      && VouchesCounted(t.boxes, t.records)
      && forall k | MakesNoneFor(core.outputs, k) :: Unmoved(s.records, t.records, k)
    decreases |core.outputs| - i
  {
    if i < |core.outputs| {
      var id, box := Out(core, i), core.outputs[i];
      InsertEffect(s, taken, id, box);
      var n := InsertOne(s, taken, id, box).value;
      assert forall b | b in core.outputs :: PartiesIn(b, s.records) ==> PartiesIn(b, n.records);
      InsertFromEffect(n, taken + {id}, core, i + 1);
      OneMoreOutput(s.boxes, core, i);
      var t := InsertFrom(s, taken, core, i).value;
      AgedTransitive(s.records, n.records, t.records);
      forall k | MakesNoneFor(core.outputs, k) ensures Unmoved(s.records, t.records, k) {
        assert Unmoved(s.records, n.records, k);
      }
    } else {
      assert s.boxes + OutputsFrom(core, i) == s.boxes;
    }
  }

  /** The boxes a transaction leaves. */
  ghost function AfterTx(boxes: Boxes, core: TxCore): Boxes {
    boxes - Members(core.inputs) + OutputsFrom(core, 0)
  }

  ghost predicate Appliable(s: State, taken: set<BoxId>, core: TxCore) {
    && Distinct(core.inputs)
    && (forall id | id in core.inputs :: id in s.boxes)
    && FreshFrom(core, 0, taken)
    && FreshFrom(core, 0, s.boxes.Keys)
    && (forall b | b in core.outputs :: PartiesIn(b, s.records))
  }

  /** A transaction over counted vouches never throws, and leaves them counted. */
  lemma ApplyTxEffect(s: State, taken: set<BoxId>, core: TxCore)
    requires Appliable(s, taken, core)
    requires VouchParties(s.boxes, s.records) && VouchesCounted(s.boxes, s.records)
    ensures ApplyTx(s, taken, core).Some?
    ensures var t := ApplyTx(s, taken, core).value;
      && t.boxes == AfterTx(s.boxes, core)
      && Aged(s.records, t.records)
      && VouchParties(t.boxes, t.records)
      && VouchesCounted(t.boxes, t.records)
      && SameBeside(s, t)
      && forall k | SparesTarget(s.boxes, core.inputs, k) && MakesNoneFor(core.outputs, k) ::
         Unmoved(s.records, t.records, k)
  {
    ConsumeAllEffect(s, core.inputs);
    var n := ConsumeAll(s, core.inputs).value;
    forall b | b in core.outputs ensures PartiesIn(b, n.records) {
      assert PartiesIn(b, s.records);
    }
    InsertFromEffect(n, taken, core, 0);
    var t := ApplyTx(s, taken, core).value;
    AgedTransitive(s.records, n.records, t.records);
    AppliedKeepsPosts(s, taken, core);
    forall k | SparesTarget(s.boxes, core.inputs, k) && MakesNoneFor(core.outputs, k)
      ensures Unmoved(s.records, t.records, k)
    {
      assert Unmoved(s.records, n.records, k) && Unmoved(n.records, t.records, k);
    }
  }

  // ---------------------------------------------------------------------------
  // Sums
  // ---------------------------------------------------------------------------

  lemma SumFrom(bs: seq<Box>, i: nat, w: Box -> int)
    requires i < |bs|
    ensures SeqSum(bs[i..], w) == w(bs[i]) + SeqSum(bs[i + 1..], w)
  {
    assert bs[i..][1..] == bs[i + 1..];
  }

  lemma {:induction false} InsertedSum(boxes: Boxes, core: TxCore, i: nat, w: Box -> int)
    requires i <= |core.outputs| && FreshFrom(core, i, boxes.Keys)
    ensures MapSum(boxes + OutputsFrom(core, i), w) == MapSum(boxes, w) + SeqSum(core.outputs[i..], w)
    decreases |core.outputs| - i
  {
    if i < |core.outputs| {
      var id, box := Out(core, i), core.outputs[i];
      MapSumInsert(boxes, w, id, box);
      InsertedSum(boxes[id := box], core, i + 1, w);
      OneMoreOutput(boxes, core, i);
      SumFrom(core.outputs, i, w);
    } else {
      assert boxes + OutputsFrom(core, i) == boxes;
    }
  }

  lemma AfterTxSum(boxes: Boxes, core: TxCore, w: Box -> int)
    requires Distinct(core.inputs) && forall id | id in core.inputs :: id in boxes
    requires FreshFrom(core, 0, boxes.Keys)
    ensures MapSum(AfterTx(boxes, core), w) ==
      MapSum(boxes, w) - SeqSum(ValuesAt(boxes, core.inputs), w) + SeqSum(core.outputs, w)
  {
    MapSumRemoveAll(boxes, w, core.inputs);
    InsertedSum(boxes - Members(core.inputs), core, 0, w);
    assert core.outputs[0..] == core.outputs;
  }

  // ---------------------------------------------------------------------------
  // Ids
  // ---------------------------------------------------------------------------

  /** A live box a transaction created is that output of an applied one. */
  ghost predicate Created(boxes: Boxes, applied: set<TxCore>, id: BoxId) {
    id.Out? && id in boxes ==>
      id.creator in applied && id.index < |id.creator.outputs| && boxes[id] == id.creator.outputs[id.index]
  }

  /** Nothing an applied transaction consumed is live, or can come back. */
  ghost predicate Dead(boxes: Boxes, applied: set<TxCore>, core: TxCore) {
    core.inputs != [] && forall id | id in core.inputs :: id !in boxes && (id.Out? ==> id.creator in applied)
  }

  ghost predicate Historied(boxes: Boxes, applied: set<TxCore>) {
    && (forall id | id in boxes :: Created(boxes, applied, id))
    && (forall core | core in applied :: Dead(boxes, applied, core))
  }

  /** A transaction whose inputs are live is new, and so are its outputs. */
  lemma LiveInputsAreNew(boxes: Boxes, applied: set<TxCore>, core: TxCore)
    requires Historied(boxes, applied) && core.inputs != [] && core.inputs[0] in boxes
    ensures core !in applied
    ensures FreshFrom(core, 0, boxes.Keys)
  {
    assert core in applied ==> Dead(boxes, applied, core);
    forall i | 0 <= i < |core.outputs| ensures Out(core, i) !in boxes {
      assert Out(core, i) in boxes ==> Created(boxes, applied, Out(core, i));
    }
  }

  lemma AppliedStaysHistoried(boxes: Boxes, applied: set<TxCore>, core: TxCore)
    requires Historied(boxes, applied) && core.inputs != []
    requires forall id | id in core.inputs :: id in boxes
    ensures Historied(AfterTx(boxes, core), applied + {core})
  {
    LiveInputsAreNew(boxes, applied, core);
    var after, all := AfterTx(boxes, core), applied + {core};
    forall id | id in after ensures Created(after, all, id) {
      assert id in boxes ==> Created(boxes, applied, id);
    }
    forall c | c in all ensures Dead(after, all, c) {
      if c in applied {
        assert Dead(boxes, applied, c);
      } else {
        forall id | id in core.inputs ensures id !in after && (id.Out? ==> id.creator in all) {
          assert Created(boxes, applied, id);
        }
      }
    }
  }
}
