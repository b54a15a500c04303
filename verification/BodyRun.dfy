/** What a block's user transactions keep, one after another, whatever they are. */
module BodyRun {
  import opened Wrappers
  import opened Sums
  import opened Ledger
  import opened Engine
  import opened Body
  import opened Coinbase
  import opened Decay
  import opened Applying
  import opened Lawful
  import opened Invariant

  // ---------------------------------------------------------------------------
  // What the body creates and spends
  // ---------------------------------------------------------------------------

  predicate IsCreated(done: seq<TxCore>, id: BoxId) {
    id.Out? && id.creator in done && id.index < |id.creator.outputs|
  }

  /** What an id names: the box live before the body, else the output it points at. */
  ghost function Content(boxes: Boxes, id: BoxId): Box
    requires id in boxes || (id.Out? && id.index < |id.creator.outputs|)
  {
    if id in boxes then boxes[id] else id.creator.outputs[id.index]
  }

  ghost predicate Sourced(before: Boxes, done: seq<TxCore>, id: BoxId) {
    id in before || IsCreated(done, id)
  }

  /** Live after the body: what was live or created, less what was spent. */
  ghost predicate Traced(before: Boxes, done: seq<TxCore>, now: Boxes, id: BoxId) {
    && (id in now <==> Sourced(before, done, id) && id !in InputsOf(done))
    && (id in now ==> now[id] == Content(before, id))
  }

  ghost predicate SpentLawfully(before: Boxes, done: seq<TxCore>, id: BoxId) {
    Sourced(before, done, id) && UserSpendable(Content(before, id))
  }

  ghost predicate BoxesTraced(before: Boxes, done: seq<TxCore>, now: Boxes) {
    && (forall id :: Traced(before, done, now, id))
    && (forall id | id in InputsOf(done) :: SpentLawfully(before, done, id))
    && (forall core | core in done :: forall b | b in core.outputs :: UserOutputShape(b))
  }

  /** Each transaction of the body is new to the chain. */
  ghost predicate AllNew(before: Boxes, applied: set<TxCore>, done: seq<TxCore>, now: Boxes, taken: set<BoxId>) {
    && Historied(before, applied)
    && Historied(now, applied + Members(done))
    && Distinct(done)
    && (forall core | core in done :: core !in applied)
    && (forall id | id in taken :: Sourced(before, done, id))
  }

  lemma {:induction false} InputsOfSnoc(done: seq<TxCore>, core: TxCore)
    ensures InputsOf(done + [core]) == InputsOf(done) + Members(core.inputs)
  {
    if done == [] {
      assert done + [core] == [core];
      assert InputsOf([]) == {} && [core][1..] == [];
    } else {
      assert (done + [core])[1..] == done[1..] + [core];
      InputsOfSnoc(done[1..], core);
    }
  }

  lemma CreatedSnoc(done: seq<TxCore>, core: TxCore, id: BoxId)
    ensures IsCreated(done + [core], id) <==> IsCreated(done, id) || id in OutputsFrom(core, 0)
  {
  }

  // ---------------------------------------------------------------------------
  // One transaction: the boxes
  // ---------------------------------------------------------------------------

  ghost predicate Spendable(boxes: Boxes, core: TxCore) {
    && Distinct(core.inputs)
    && core.inputs != []
    && (forall id | id in core.inputs :: id in boxes && UserSpendable(boxes[id]))
    && (forall b | b in core.outputs :: UserOutputShape(b))
  }

  lemma NewCore(before: Boxes, applied: set<TxCore>, done: seq<TxCore>, now: Boxes, taken: set<BoxId>, core: TxCore)
    requires AllNew(before, applied, done, now, taken)
    requires core.inputs != [] && core.inputs[0] in now
    ensures core !in applied && core !in done
    ensures FreshFrom(core, 0, taken) && FreshFrom(core, 0, now.Keys) && FreshFrom(core, 0, before.Keys)
  {
    LiveInputsAreNew(now, applied + Members(done), core);
    forall i | 0 <= i < |core.outputs| ensures Out(core, i) !in taken && Out(core, i) !in before {
      var id := Out(core, i);
      assert id in before ==> Created(before, applied, id);
      assert id in taken ==> Sourced(before, done, id);
    }
  }

  lemma StaysNew(before: Boxes, applied: set<TxCore>, done: seq<TxCore>, now: Boxes, taken: set<BoxId>, core: TxCore)
    requires AllNew(before, applied, done, now, taken)
    requires Spendable(now, core)
    ensures AllNew(before, applied, done + [core], AfterTx(now, core), taken + OutputIds(core))
  {
    NewCore(before, applied, done, now, taken, core);
    AppliedStaysHistoried(now, applied + Members(done), core);
    assert applied + Members(done) + {core} == applied + Members(done + [core]);
    forall id | id in taken + OutputIds(core) ensures Sourced(before, done + [core], id) {
      CreatedSnoc(done, core, id);
      assert id in taken ==> Sourced(before, done, id);
    }
  }

  lemma StaysTraced(before: Boxes, applied: set<TxCore>, done: seq<TxCore>, now: Boxes, taken: set<BoxId>, core: TxCore)
    requires AllNew(before, applied, done, now, taken) && BoxesTraced(before, done, now)
    requires Spendable(now, core)
    ensures BoxesTraced(before, done + [core], AfterTx(now, core))
  {
    NewCore(before, applied, done, now, taken, core);
    InputsOfSnoc(done, core);
    var after, all := AfterTx(now, core), done + [core];
    forall id ensures Traced(before, all, after, id) {
      CreatedSnoc(done, core, id);
      assert Traced(before, done, now, id);
      if id in OutputsFrom(core, 0) {
        assert id == Out(core, id.index) && id !in before && id !in now;
        assert id in InputsOf(done) ==> SpentLawfully(before, done, id);
      }
    }
    forall id | id in InputsOf(all) ensures SpentLawfully(before, all, id) {
      CreatedSnoc(done, core, id);
      if id in InputsOf(done) {
        assert SpentLawfully(before, done, id);
      } else {
        assert Traced(before, done, now, id);
      }
    }
  }

  // ---------------------------------------------------------------------------
  // One transaction: no rivals
  // ---------------------------------------------------------------------------

  /** Rivals among what user transactions make and leave: karma and vouches. */
  predicate UserRivals(a: Box, b: Box) {
    (a.Karma? || a.Vouch?) && Rivals(a, b)
  }

  ghost predicate NoUserRivals(boxes: Boxes) {
    forall i, j | i in boxes && j in boxes && i != j :: !UserRivals(boxes[i], boxes[j])
  }

  lemma NewBoxHasNoRival(s: State, core: TxCore, i: BoxId, j: BoxId)
    requires KarmaLawful(s.boxes, core) && VouchLawful(s, core)
    requires (forall b | b in core.outputs :: UserOutputShape(b))
    requires i in OutputsFrom(core, 0) && i != j
    requires j in AfterTx(s.boxes, core)
    ensures !UserRivals(AfterTx(s.boxes, core)[i], AfterTx(s.boxes, core)[j])
    ensures !UserRivals(AfterTx(s.boxes, core)[j], AfterTx(s.boxes, core)[i])
  {
    var after := AfterTx(s.boxes, core);
    var a, b := after[i], after[j];
    assert a == core.outputs[i.index] && a in core.outputs;
    if j in OutputsFrom(core, 0) {
      OutputsUnrivalled(core, i.index, j.index);
    } else {
      assert j in s.boxes && j !in core.inputs && b == s.boxes[j];
      if a.Karma? {
        assert SpendsAllUnmarked(s.boxes, core, a.owner) && !a.income;
      } else if a.Vouch? {
        assert !HoldsVouch(s.boxes, a.voucherId, a.targetId);
      }
    }
  }

  lemma OutputsUnrivalled(core: TxCore, i: nat, j: nat)
    requires AtMostOne(core.outputs, IsKarma) && AtMostOne(core.outputs, IsVouch)
    requires i < |core.outputs| && j < |core.outputs| && i != j
    ensures !UserRivals(core.outputs[i], core.outputs[j]) && !UserRivals(core.outputs[j], core.outputs[i])
  {
    var lo, hi := if i < j then i else j, if i < j then j else i;
    assert !(IsKarma(core.outputs[lo]) && IsKarma(core.outputs[hi]));
    assert !(IsVouch(core.outputs[lo]) && IsVouch(core.outputs[hi]));
  }

  lemma StaysUnrivalled(s: State, core: TxCore)
    requires KarmaLawful(s.boxes, core) && VouchLawful(s, core) && NoUserRivals(s.boxes)
    requires (forall b | b in core.outputs :: UserOutputShape(b))
    ensures NoUserRivals(AfterTx(s.boxes, core))
  {
    var after := AfterTx(s.boxes, core);
    forall i, j | i in after && j in after && i != j ensures !UserRivals(after[i], after[j]) {
      if i in OutputsFrom(core, 0) {
        NewBoxHasNoRival(s, core, i, j);
      } else if j in OutputsFrom(core, 0) {
        NewBoxHasNoRival(s, core, j, i);
      }
    }
  }
}
