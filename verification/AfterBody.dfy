/** What stands between the body and its settlement: the lists, the projection and the queries. */
module AfterBody {
  import opened Wrappers
  import opened Sums
  import opened Orders
  import opened Ledger
  import opened Engine
  import opened Body
  import opened Coinbase
  import opened Queries
  import opened Decay
  import opened Settlement
  import opened Blocks
  import opened Applying
  import opened Lawful
  import opened Invariant
  import opened BodyRun
  import opened BodyKeeps
  import opened BodyOutcome

  /** The body's transactions applied over a reachable state, the posts aside. */
  ghost predicate Ready(ctx: Ctx, o: Origin, cores: seq<TxCore>, s: State, acc: Acc) {
    && BoxesOk(ctx, o.start)
    && o.inputs == InputsOf(cores)
    && Mid(o, cores, s.(posts := o.start.posts), acc)
  }

  // ---------------------------------------------------------------------------
  // The body's lists
  // ---------------------------------------------------------------------------

  ghost predicate ListedIn(cores: seq<TxCore>, p: Box -> bool, l: Live) {
    IsCreated(cores, l.id) && l.box == l.id.creator.outputs[l.id.index] && p(l.box)
  }

  lemma {:induction false} BodyListedHolds(cores: seq<TxCore>, p: Box -> bool)
    ensures forall l :: l in BodyListed(cores, p) <==> ListedIn(cores, p, l)
  {
    if cores != [] {
      BodyListedHolds(cores[1..], p);
      assert BodyListed(cores, p) == Listed(cores[0], 0, p) + BodyListed(cores[1..], p);
      forall l ensures l in BodyListed(cores, p) <==> ListedIn(cores, p, l) {
        assert l in Listed(cores[0], 0, p) <==> IsListed(cores[0], 0, p, l);
        assert IsCreated(cores, l.id) <==> IsCreated([cores[0]], l.id) || IsCreated(cores[1..], l.id);
      }
    }
  }

  lemma {:induction false} ListedDistinct(core: TxCore, i: nat, p: Box -> bool)
    requires i <= |core.outputs|
    ensures Distinct(Ids(Listed(core, i, p)))
    decreases |core.outputs| - i
  {
    if i < |core.outputs| && p(core.outputs[i]) {
      ListedDistinct(core, i + 1, p);
      var rest := Listed(core, i + 1, p);
      assert Listed(core, i, p) == [Live(Out(core, i), core.outputs[i])] + rest;
      assert Ids(Listed(core, i, p))[1..] == Ids(rest);
      forall k | 0 <= k < |rest| ensures Ids(rest)[k] != Out(core, i) {
        assert rest[k] in rest && IsListed(core, i + 1, p, rest[k]);
      }
    } else if i < |core.outputs| {
      ListedDistinct(core, i + 1, p);
      assert Listed(core, i, p) == [] + Listed(core, i + 1, p);
    }
  }

  lemma IdsConcat(a: seq<Live>, b: seq<Live>)
    ensures Ids(a + b) == Ids(a) + Ids(b)
  {
  }

  /** No id on both lists. */
  ghost predicate ApartIds(a: seq<Live>, b: seq<Live>) {
    forall x, y | x in a && y in b :: x.id != y.id
  }

  lemma DisjointIds(a: seq<Live>, b: seq<Live>)
    requires ApartIds(a, b)
    ensures NoCommon(Ids(a), Ids(b))
  {
    forall i, j | 0 <= i < |Ids(a)| && 0 <= j < |Ids(b)| ensures Ids(a)[i] != Ids(b)[j] {
      assert a[i] in a && b[j] in b;
    }
  }

  lemma DistinctConcat(a: seq<Live>, b: seq<Live>)
    requires Distinct(Ids(a)) && Distinct(Ids(b)) && ApartIds(a, b)
    ensures Distinct(Ids(a + b))
  {
    DisjointIds(a, b);
    JoinIds(a, b);
  }

  lemma JoinIds(a: seq<Live>, b: seq<Live>)
    requires Distinct(Ids(a)) && Distinct(Ids(b)) && NoCommon(Ids(a), Ids(b))
    ensures Distinct(Ids(a + b))
  {
    DistinctJoin(Ids(a), Ids(b));
    IdsConcat(a, b);
  }

  lemma {:induction false} BodyListedDistinct(cores: seq<TxCore>, p: Box -> bool)
    requires Distinct(cores)
    ensures Distinct(Ids(BodyListed(cores, p)))
  {
    if cores != [] {
      var head, rest := Listed(cores[0], 0, p), BodyListed(cores[1..], p);
      DistinctTail(cores);
      BodyListedDistinct(cores[1..], p);
      ListedDistinct(cores[0], 0, p);
      BodyListedHolds(cores[1..], p);
      forall x, y | x in head && y in rest ensures x.id != y.id {
        assert IsListed(cores[0], 0, p, x) && ListedIn(cores[1..], p, y);
      }
      DistinctConcat(head, rest);
    }
  }

  // ---------------------------------------------------------------------------
  // What is live
  // ---------------------------------------------------------------------------

  lemma LiveMeans(ctx: Ctx, o: Origin, cores: seq<TxCore>, s: State, acc: Acc, id: BoxId)
    requires Ready(ctx, o, cores, s, acc)
    ensures Traced(o.start.boxes, cores, s.boxes, id)
    ensures id in InputsOf(cores) ==> SpentLawfully(o.start.boxes, cores, id)
    ensures IsCreated(cores, id) ==> id !in o.start.boxes && UserOutputShape(id.creator.outputs[id.index])
  {
    assert Traced(o.start.boxes, cores, s.boxes, id);
    if IsCreated(cores, id) {
      assert id in o.start.boxes ==> Created(o.start.boxes, o.applied, id);
      assert id.creator.outputs[id.index] in id.creator.outputs;
    }
  }

  /** A box no user transaction may spend survives the body. */
  lemma UnspendableStays(ctx: Ctx, o: Origin, cores: seq<TxCore>, s: State, acc: Acc, id: BoxId)
    requires Ready(ctx, o, cores, s, acc)
    requires id in o.start.boxes && !UserSpendable(o.start.boxes[id])
    ensures id in s.boxes && s.boxes[id] == o.start.boxes[id]
  {
    LiveMeans(ctx, o, cores, s, acc, id);
  }

  /** A box user transactions cannot create was there before the body. */
  lemma NewIsUserMade(ctx: Ctx, o: Origin, cores: seq<TxCore>, s: State, acc: Acc, id: BoxId)
    requires Ready(ctx, o, cores, s, acc) && id in s.boxes
    ensures id !in o.start.boxes ==>
      IsCreated(cores, id) && UserOutputShape(s.boxes[id]) && s.boxes[id] == id.creator.outputs[id.index]
    ensures id in o.start.boxes ==> s.boxes[id] == o.start.boxes[id]
  {
    LiveMeans(ctx, o, cores, s, acc, id);
  }

  /** A list of the body's boxes: live, none there before, each once, and every one of its type. */
  ghost predicate ListLeft(before: Boxes, now: Boxes, ls: seq<Live>, p: Box -> bool) {
    && LiveList(now, ls)
    && (forall l | l in ls :: p(l.box) && l.id !in before)
    && forall id | id in now && id !in before && p(now[id]) :: Live(id, now[id]) in ls
  }

  /** The body's boxes of a type nobody may spend are live, listed once each, and all of them are listed. */
  lemma BodyListIsLive(ctx: Ctx, o: Origin, cores: seq<TxCore>, s: State, acc: Acc, p: Box -> bool)
    requires Ready(ctx, o, cores, s, acc)
    requires forall b :: p(b) ==> !UserSpendable(b)
    ensures ListLeft(o.start.boxes, s.boxes, BodyListed(cores, p), p)
  {
    var ls := BodyListed(cores, p);
    BodyListedHolds(cores, p);
    BodyListedDistinct(cores, p);
    forall l | l in ls
      ensures l.id in s.boxes && s.boxes[l.id] == l.box && p(l.box) && l.id !in o.start.boxes
    {
      assert ListedIn(cores, p, l);
      LiveMeans(ctx, o, cores, s, acc, l.id);
    }
    forall id | id in s.boxes && id !in o.start.boxes && p(s.boxes[id]) ensures Live(id, s.boxes[id]) in ls {
      NewIsUserMade(ctx, o, cores, s, acc, id);
      assert ListedIn(cores, p, Live(id, s.boxes[id]));
    }
  }

  /** A list of boxes from before that the body spends none of, still live. */
  lemma SurvivingList(ctx: Ctx, o: Origin, cores: seq<TxCore>, s: State, acc: Acc, ls: seq<Live>)
    requires Ready(ctx, o, cores, s, acc) && LiveList(o.start.boxes, ls)
    requires forall l | l in ls :: l.id !in o.inputs || !UserSpendable(l.box)
    ensures LiveList(s.boxes, ls)
  {
    forall l | l in ls ensures l.id in s.boxes && s.boxes[l.id] == l.box {
      LiveMeans(ctx, o, cores, s, acc, l.id);
    }
  }

  // ---------------------------------------------------------------------------
  // The squared set's projection
  // ---------------------------------------------------------------------------

  ghost predicate IsKarmaOf(boxes: Boxes, owner: Key, l: Live) {
    l.id in boxes && boxes[l.id] == l.box && l.box.Karma? && l.box.owner == owner
  }

  lemma KarmaBoxesHold(ctx: Ctx, boxes: Boxes, owner: Key)
    ensures var ls := KarmaBoxes(ctx, boxes, owner);
      LiveList(boxes, ls) && forall l :: l in ls <==> IsKarmaOf(boxes, owner, l)
  {
    SortedLives(boxes, KarmaOf(owner), ByValue(ctx));
  }

  /** An owner the body does not touch holds after it what they held before. */
  lemma UntouchedKeeps(ctx: Ctx, o: Origin, cores: seq<TxCore>, s: State, acc: Acc, owner: Key, l: Live)
    requires Ready(ctx, o, cores, s, acc)
    requires owner !in TouchedOwners(o.start.boxes, o.inputs)
    ensures IsKarmaOf(s.boxes, owner, l) <==> IsKarmaOf(o.start.boxes, owner, l)
  {
    LiveMeans(ctx, o, cores, s, acc, l.id);
    NewKarmaIsTouched(ctx, o, cores, s, acc, l.id);
    SpentKarmaIsTouched(o, l.id);
  }

  lemma NewKarmaIsTouched(ctx: Ctx, o: Origin, cores: seq<TxCore>, s: State, acc: Acc, id: BoxId)
    requires Ready(ctx, o, cores, s, acc)
    ensures id in s.boxes && id !in o.start.boxes && s.boxes[id].Karma? ==>
      s.boxes[id].owner in TouchedOwners(o.start.boxes, o.inputs)
  {
  }

  lemma SpentKarmaIsTouched(o: Origin, id: BoxId)
    ensures id in o.inputs && id in o.start.boxes && o.start.boxes[id].Karma? ==>
      o.start.boxes[id].owner in TouchedOwners(o.start.boxes, o.inputs)
  {
  }

  lemma TouchedProjection(ctx: Ctx, o: Origin, cores: seq<TxCore>, s: State, acc: Acc, owner: Key, l: Live)
    requires Ready(ctx, o, cores, s, acc)
    ensures l in LessSpent(KarmaBoxes(ctx, o.start.boxes, owner), o.inputs)
      + LessSpent(BodyListed(cores, KarmaOf(owner)), o.inputs)
      <==> IsKarmaOf(s.boxes, owner, l)
  {
    KarmaBoxesHold(ctx, o.start.boxes, owner);
    BodyListedHolds(cores, KarmaOf(owner));
    LiveMeans(ctx, o, cores, s, acc, l.id);
    assert l in KarmaBoxes(ctx, o.start.boxes, owner) <==> IsKarmaOf(o.start.boxes, owner, l);
    assert l in BodyListed(cores, KarmaOf(owner)) <==> ListedIn(cores, KarmaOf(owner), l);
  }

  lemma {:induction false} LessSpentDistinct(ls: seq<Live>, spent: set<BoxId>)
    requires Distinct(Ids(ls))
    ensures Distinct(Ids(LessSpent(ls, spent)))
  {
    if ls != [] {
      var rest := LessSpent(ls[1..], spent);
      assert Ids(ls)[1..] == Ids(ls[1..]);
      DistinctTail(Ids(ls));
      LessSpentDistinct(ls[1..], spent);
      if ls[0].id !in spent {
        assert Ids([ls[0]] + rest) == [ls[0].id] + Ids(rest);
        forall k | 0 <= k < |rest| ensures Ids(rest)[k] != ls[0].id {
          assert rest[k] in rest && rest[k] in ls[1..];
          IdListed(ls[1..], rest[k]);
        }
      }
    }
  }

  lemma IdListed(ls: seq<Live>, l: Live)
    requires l in ls
    ensures l.id in Ids(ls)
  {
    var i :| 0 <= i < |ls| && ls[i] == l;
    assert Ids(ls)[i] == l.id;
  }

  /** The plan's boxes are exactly the owner's live karma after the body. */
  lemma ProjectedIsLive(ctx: Ctx, o: Origin, cores: seq<TxCore>, s: State, acc: Acc, owner: Key)
    requires Ready(ctx, o, cores, s, acc)
    ensures var ls := Projected(ctx, o.start.boxes, cores, owner);
      LiveList(s.boxes, ls) && forall l :: l in ls <==> IsKarmaOf(s.boxes, owner, l)
  {
    var ls := Projected(ctx, o.start.boxes, cores, owner);
    KarmaBoxesHold(ctx, o.start.boxes, owner);
    if owner in TouchedOwners(o.start.boxes, o.inputs) {
      forall l ensures l in ls <==> IsKarmaOf(s.boxes, owner, l) {
        TouchedProjection(ctx, o, cores, s, acc, owner, l);
      }
      TouchedDistinct(ctx, o, cores, s, acc, owner);
    } else {
      forall l ensures l in ls <==> IsKarmaOf(s.boxes, owner, l) {
        UntouchedKeeps(ctx, o, cores, s, acc, owner, l);
      }
    }
  }

  ghost predicate ProjectionLive(ctx: Ctx, before: Boxes, cores: seq<TxCore>, now: Boxes, owner: Key) {
    var ls := Projected(ctx, before, cores, owner);
    LiveList(now, ls) && forall l :: l in ls <==> IsKarmaOf(now, owner, l)
  }

  lemma AllProjected(ctx: Ctx, o: Origin, cores: seq<TxCore>, s: State, acc: Acc)
    requires Ready(ctx, o, cores, s, acc)
    ensures forall owner :: ProjectionLive(ctx, o.start.boxes, cores, s.boxes, owner)
  {
    forall owner ensures ProjectionLive(ctx, o.start.boxes, cores, s.boxes, owner) {
      ProjectedIsLive(ctx, o, cores, s, acc, owner);
    }
  }

  lemma TouchedDistinct(ctx: Ctx, o: Origin, cores: seq<TxCore>, s: State, acc: Acc, owner: Key)
    requires Ready(ctx, o, cores, s, acc)
    ensures Distinct(Ids(LessSpent(KarmaBoxes(ctx, o.start.boxes, owner), o.inputs)
      + LessSpent(BodyListed(cores, KarmaOf(owner)), o.inputs)))
  {
    var a := LessSpent(KarmaBoxes(ctx, o.start.boxes, owner), o.inputs);
    var b := LessSpent(BodyListed(cores, KarmaOf(owner)), o.inputs);
    KarmaBoxesHold(ctx, o.start.boxes, owner);
    BodyListedHolds(cores, KarmaOf(owner));
    BodyListedDistinct(cores, KarmaOf(owner));
    LessSpentDistinct(KarmaBoxes(ctx, o.start.boxes, owner), o.inputs);
    LessSpentDistinct(BodyListed(cores, KarmaOf(owner)), o.inputs);
    forall x, y | x in a && y in b ensures x.id != y.id {
      assert IsKarmaOf(o.start.boxes, owner, x) && ListedIn(cores, KarmaOf(owner), y);
      LiveMeans(ctx, o, cores, s, acc, y.id);
    }
    DistinctConcat(a, b);
  }
}
