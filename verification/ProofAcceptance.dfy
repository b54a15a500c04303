/** Every proof the prover builds over a valid chain passes every rule of the verifier. */
module ProofAcceptance {
  import opened Wrappers
  import opened Headers
  import opened NipopowProofs
  import opened Prover
  import opened ProofVerifier

  // ---------------------------------------------------------------------------
  // The regions between successive anchors
  // ---------------------------------------------------------------------------

  lemma ReachesLower(rules: Rules, h: Header, mu: nat, nu: nat)
    requires Reaches(rules, h, mu) && nu <= mu
    ensures Reaches(rules, h, nu)
  {
  }

  /** What is kept so far lies above block 1 and reaches the next level up; the anchor is kept, or block 1. */
  lemma {:induction false} WalkKeeps(rules: Rules, chain: seq<PoPowHeader>, head: nat, m: nat, top: nat, mu: nat,
    x: int)
    requires head <= |chain| && 1 <= m
    ensures var w := WalkAbove(rules, chain, head, m, top, mu);
      && (x in w.kept ==> 1 <= x < head && Reaches(rules, chain[x].header, mu + 1))
      && (w.anchor == 0 || w.anchor in w.kept)
    decreases top - mu
  {
    if mu < top {
      var above := WalkAbove(rules, chain, head, m, top, mu + 1);
      var xs := LevelChain(rules, chain, Max(above.anchor, 1), head, mu + 1);
      WalkKeeps(rules, chain, head, m, top, mu + 1, x);
      if x >= 0 {
        InLevelChain(rules, chain, Max(above.anchor, 1), head, mu + 1, x);
        if x in above.kept {
          ReachesLower(rules, chain[x].header, mu + 2, mu + 1);
        }
      } else {
        assert forall y | y in xs :: y >= 0;
      }
      if m < |xs| {
        assert xs[|xs| - m] in Elements(xs);
      }
    }
  }

  /** `b`'s vector names `a`, or `a` is its parent. */
  ghost predicate Names(rules: Rules, chain: seq<PoPowHeader>, a: nat, b: nat)
    requires a < |chain| && b < |chain|
  {
    b == a + 1 || (rules.digest)(chain[a].header) in chain[b].interlinks
  }

  /** Where nothing between `a` and `b` reaches a level both reach, `b`'s vector names `a`. */
  lemma NeighboursOnALevel(rules: Rules, chain: seq<PoPowHeader>, a: nat, b: nat, mu: nat)
    requires ValidChain(rules, chain)
    requires a < b < |chain| && 1 <= mu
    requires a == 0 || Reaches(rules, chain[a].header, mu)
    requires forall x | a < x < b :: !Reaches(rules, chain[x].header, mu)
    ensures Names(rules, chain, a, b)
  {
    InterlinksNameLatest(rules, chain, b);
    var links := chain[b].interlinks;
    if a == 0 {
      assert links[0] == (rules.digest)(chain[0].header);
    } else {
      var y := Latest(rules, chain, b, mu);
      assert y == a;
      assert links[mu] == (rules.digest)(chain[a].header);
    }
  }

  ghost predicate NoneBetween(kept: set<int>, a: int, b: int) {
    forall x | x in kept :: !(a < x < b)
  }

  /** Some level has `a` and `b` as neighbours: `a` reaches it or is block 1, and nothing between them reaches it. */
  ghost predicate Neighbours(rules: Rules, chain: seq<PoPowHeader>, a: nat, b: nat, mu: nat)
    requires a < b < |chain|
  {
    && 1 <= mu
    && (a == 0 || Reaches(rules, chain[a].header, mu))
    && (forall x | a < x < b :: !Reaches(rules, chain[x].header, mu))
  }

  /** The region a level's walk adds: its headers are neighbours on that level. */
  lemma RegionNeighbours(rules: Rules, chain: seq<PoPowHeader>, head: nat, m: nat, top: nat, mu: nat, a: nat, b: nat)
    requires head < |chain| && 1 <= m && mu < top
    requires var w := WalkAbove(rules, chain, head, m, top, mu);
      var above := WalkAbove(rules, chain, head, m, top, mu + 1);
      above.anchor <= a < b <= w.anchor && (a == 0 || a in w.kept) && NoneBetween(w.kept, a, b)
    ensures Neighbours(rules, chain, a, b, mu + 1)
  {
    var w := WalkAbove(rules, chain, head, m, top, mu);
    var above := WalkAbove(rules, chain, head, m, top, mu + 1);
    var lo := Max(above.anchor, 1);
    var xs := LevelChain(rules, chain, lo, head, mu + 1);
    WalkKeeps(rules, chain, head, m, top, mu, a);
    forall x | a < x < b
      ensures !Reaches(rules, chain[x].header, mu + 1)
    {
      InLevelChain(rules, chain, lo, head, mu + 1, x);
      assert x in xs ==> x in w.kept;
    }
  }

  /** Below the anchor the walk has reached, headers kept one after the other are neighbours on some level. */
  lemma {:induction false} WalkNeighbours(rules: Rules, chain: seq<PoPowHeader>, head: nat, m: nat, top: nat, mu: nat,
    a: nat, b: nat)
    returns (nu: nat)
    requires head < |chain| && 1 <= m
    requires var w := WalkAbove(rules, chain, head, m, top, mu);
      && a < b <= w.anchor && (a == 0 || a in w.kept) && (b in w.kept || b == w.anchor) && NoneBetween(w.kept, a, b)
    ensures Neighbours(rules, chain, a, b, nu)
    decreases top - mu
  {
    var above := WalkAbove(rules, chain, head, m, top, mu + 1);
    WalkKeeps(rules, chain, head, m, top, mu + 1, b);
    if b <= above.anchor {
      var xs := LevelChain(rules, chain, Max(above.anchor, 1), head, mu + 1);
      assert a !in xs;
      assert b in xs ==> b == above.anchor;
      nu := WalkNeighbours(rules, chain, head, m, top, mu + 1, a, b);
    } else {
      assert above.anchor <= a;
      RegionNeighbours(rules, chain, head, m, top, mu, a, b);
      nu := mu + 1;
    }
  }

  /** Each header of the prefix, and the suffix head, names the one before it. */
  lemma KeptConnects(rules: Rules, chain: seq<PoPowHeader>, head: nat, m: nat, top: nat, a: nat, b: nat)
    requires ValidChain(rules, chain)
    requires 1 <= head < |chain| && 1 <= m
    requires var kept := KeptPositions(rules, chain, head, m, top);
      && a in kept && (b in kept || b == head) && a < b <= head && NoneBetween(kept, a, b)
    ensures Names(rules, chain, a, b)
  {
    var w := WalkAbove(rules, chain, head, m, top, 0);
    WalkKeeps(rules, chain, head, m, top, 0, a);
    WalkKeeps(rules, chain, head, m, top, 0, b);
    var kept := KeptPositions(rules, chain, head, m, top);
    assert w.anchor in kept;
    assert InSpan(a + 1, w.anchor, head) ==> a + 1 in kept;
    if b <= w.anchor {
      assert !InSpan(a, w.anchor, head);
      assert b in w.kept || b == w.anchor;
      var nu := WalkNeighbours(rules, chain, head, m, top, 0, a, b);
      NeighboursOnALevel(rules, chain, a, b, nu);
    } else {
      assert w.anchor <= a;
    }
  }

  // ---------------------------------------------------------------------------
  // The proof as a run of the chain's own headers
  // ---------------------------------------------------------------------------

  /** `hs` are headers of the chain, at strictly rising heights. */
  ghost predicate DrawnFrom(chain: seq<PoPowHeader>, hs: seq<Header>) {
    && (forall i | 0 <= i < |hs| :: 1 <= hs[i].height <= |chain| && hs[i] == chain[hs[i].height - 1].header)
    && (forall i | 1 <= i < |hs| :: hs[i - 1].height < hs[i].height)
  }

  lemma {:induction false} TimeRises(rules: Rules, chain: seq<PoPowHeader>, x: nat, y: nat)
    requires ValidChain(rules, chain)
    requires x < y < |chain|
    ensures chain[x].header.createdAt < chain[y].header.createdAt
    decreases y
  {
    assert chain[y - 1].header.createdAt < chain[y].header.createdAt;
    if x < y - 1 {
      TimeRises(rules, chain, x, y - 1);
    }
  }

  /** Every rule over the headers alone holds of headers drawn from a valid chain, block 1 first and the tip last. */
  lemma DrawnHeadersPass(rules: Rules, chain: seq<PoPowHeader>, hs: seq<Header>)
    requires ValidChain(rules, chain)
    requires DrawnFrom(chain, hs)
    requires hs != [] && hs[0] == chain[0].header && hs[|hs| - 1] == chain[|chain| - 1].header
    ensures forall i | 0 <= i < |hs| :: HeaderOk(rules, hs[i])
    ensures ScheduledOk(rules, hs)
    ensures TimesOk(hs)
    ensures ClockOk(rules, hs)
    ensures HeightsOk(rules, hs)
  {
    forall i | 1 <= i < |hs|
      ensures hs[i - 1].createdAt < hs[i].createdAt
      ensures ParentIs(rules, hs[i], hs[i - 1]) ==>
        && hs[i].height == hs[i - 1].height + 1
        && hs[i].powTargetBits == (rules.scheduledBits)(hs[0].createdAt, hs[i - 1].height, hs[i - 1].createdAt)
    {
      var x, y := hs[i - 1].height - 1, hs[i].height - 1;
      TimeRises(rules, chain, x, y);
      assert chain[y].header.prevBlockHash == (rules.digest)(chain[y - 1].header);
      if ParentIs(rules, hs[i], hs[i - 1]) {
        assert (rules.digest)(chain[x].header) == (rules.digest)(chain[y - 1].header);
      }
    }
  }

  /** A vector of the chain is within its bounds, of hashes, and names block 1 first. */
  lemma ChainVectorOk(rules: Rules, chain: seq<PoPowHeader>, x: nat)
    requires ValidChain(rules, chain)
    requires x < |chain|
    ensures VectorOk(rules, chain[x])
    ensures x >= 1 ==> chain[x].interlinks != [] && chain[x].interlinks[0] == (rules.digest)(chain[0].header)
  {
    if x >= 1 {
      InterlinksNameLatest(rules, chain, x);
      var links := chain[x].interlinks;
      forall i | 0 <= i < |links|
        ensures rules.isHex64(links[i])
      {
        if i >= 1 {
          assert links[i] == (rules.digest)(chain[Latest(rules, chain, x, i)].header);
        }
      }
    }
  }

  ghost predicate KeptBelow(chain: seq<PoPowHeader>, head: nat, kept: set<int>) {
    0 in kept && head < |chain| && forall x | x in kept :: 0 <= x < head
  }

  lemma KeptAreBelow(rules: Rules, chain: seq<PoPowHeader>, head: nat, m: nat, top: nat)
    requires 1 <= head < |chain| && 1 <= m
    ensures KeptBelow(chain, head, KeptPositions(rules, chain, head, m, top))
  {
    forall x | x in KeptPositions(rules, chain, head, m, top)
      ensures 0 <= x < head
    {
      WalkKeeps(rules, chain, head, m, top, 0, x);
    }
  }

  /** A header's place in the chain. */
  function Place(ph: PoPowHeader): int { ph.header.height - 1 }

  ghost predicate InPlace(chain: seq<PoPowHeader>, ph: PoPowHeader) {
    0 <= Place(ph) < |chain| && chain[Place(ph)] == ph
  }

  lemma PlaceOf(chain: seq<PoPowHeader>, kept: set<int>, prefix: seq<PoPowHeader>, i: nat)
    requires forall x | 0 <= x < |chain| :: chain[x].header.height == x + 1
    requires ListsPositions(chain, kept, prefix)
    requires i < |prefix|
    ensures Place(prefix[i]) in kept && InPlace(chain, prefix[i])
  {
    assert prefix[i] in prefix;
    var x :| x in kept && 0 <= x < |chain| && chain[x] == prefix[i];
  }

  /** Block 1 comes first. */
  lemma FirstPlace(chain: seq<PoPowHeader>, kept: set<int>, prefix: seq<PoPowHeader>)
    requires forall x | 0 <= x < |chain| :: chain[x].header.height == x + 1
    requires 0 in kept && forall x | x in kept :: 0 <= x
    requires Ascending(prefix) && ListsPositions(chain, kept, prefix)
    ensures prefix != [] && prefix[0] == chain[0]
  {
    assert chain[0] in prefix;
    var first :| 0 <= first < |prefix| && prefix[first] == chain[0];
    PlaceOf(chain, kept, prefix, 0);
    assert first == 0;
  }

  /** The place of the element after `prefix[i]`: the next one's, or the suffix head's. */
  function NextPlace(prefix: seq<PoPowHeader>, head: nat, i: nat): int
    requires i < |prefix|
  {
    if i + 1 < |prefix| then Place(prefix[i + 1]) else head
  }

  /** Nothing kept lies between neighbours of the prefix. */
  lemma NothingBetweenPlaces(chain: seq<PoPowHeader>, head: nat, kept: set<int>, prefix: seq<PoPowHeader>, i: nat)
    requires forall x | 0 <= x < |chain| :: chain[x].header.height == x + 1
    requires Ascending(prefix) && ListsPositions(chain, kept, prefix)
    requires forall x | x in kept :: x < head
    requires i < |prefix|
    ensures NoneBetween(kept, Place(prefix[i]), NextPlace(prefix, head, i))
  {
    forall x | x in kept
      ensures !(Place(prefix[i]) < x < NextPlace(prefix, head, i))
    {
      var j :| 0 <= j < |prefix| && prefix[j] == chain[x];
      assert Place(prefix[j]) == x;
      assert j < i ==> prefix[j].header.height < prefix[i].header.height;
      assert i + 1 < j ==> prefix[i + 1].header.height < prefix[j].header.height;
    }
  }

  /** Where an element of the prefix and the one after it stand: both kept, and nothing kept between. */
  lemma PlacesNeighbour(chain: seq<PoPowHeader>, head: nat, kept: set<int>, prefix: seq<PoPowHeader>, i: nat)
    requires forall x | 0 <= x < |chain| :: chain[x].header.height == x + 1
    requires KeptBelow(chain, head, kept) && Ascending(prefix) && ListsPositions(chain, kept, prefix)
    requires i < |prefix|
    ensures var a, b := Place(prefix[i]), NextPlace(prefix, head, i);
      && a in kept && InPlace(chain, prefix[i])
      && (b in kept || b == head) && a < b <= head && NoneBetween(kept, a, b)
    ensures chain[NextPlace(prefix, head, i)] == if i + 1 < |prefix| then prefix[i + 1] else chain[head]
  {
    PlaceOf(chain, kept, prefix, i);
    if i + 1 < |prefix| {
      PlaceOf(chain, kept, prefix, i + 1);
    }
    NothingBetweenPlaces(chain, head, kept, prefix, i);
  }

  /** Strict adjacency at one element. */
  lemma ConnectsAfter(rules: Rules, chain: seq<PoPowHeader>, head: nat, m: nat, top: nat, prefix: seq<PoPowHeader>,
    i: nat)
    requires ValidChain(rules, chain)
    requires 1 <= head < |chain| && 1 <= m
    requires Ascending(prefix) && ListsPositions(chain, KeptPositions(rules, chain, head, m, top), prefix)
    requires i < |prefix|
    ensures Connected(rules, if i + 1 < |prefix| then prefix[i + 1] else chain[head], prefix[i].header)
  {
    KeptAreBelow(rules, chain, head, m, top);
    PlacesNeighbour(chain, head, KeptPositions(rules, chain, head, m, top), prefix, i);
    var a, b := Place(prefix[i]), NextPlace(prefix, head, i);
    KeptConnects(rules, chain, head, m, top, a, b);
    NamesConnects(rules, chain, a, b);
  }

  lemma NamesConnects(rules: Rules, chain: seq<PoPowHeader>, a: nat, b: nat)
    requires ValidChain(rules, chain)
    requires a < b < |chain| && Names(rules, chain, a, b)
    ensures Connected(rules, chain[b], chain[a].header)
  {
    assert chain[b].header.prevBlockHash == (rules.digest)(chain[b - 1].header);
  }

  lemma PrefixConnects(rules: Rules, chain: seq<PoPowHeader>, head: nat, m: nat, top: nat, prefix: seq<PoPowHeader>)
    requires ValidChain(rules, chain)
    requires 1 <= head < |chain| && 1 <= m
    requires Ascending(prefix) && ListsPositions(chain, KeptPositions(rules, chain, head, m, top), prefix)
    ensures PrefixConnected(rules, prefix + [chain[head]])
  {
    var all := prefix + [chain[head]];
    forall i | 1 <= i < |all|
      ensures Connected(rules, all[i], all[i - 1].header)
    {
      ConnectsAfter(rules, chain, head, m, top, prefix, i - 1);
    }
  }

  lemma DrawnTogether(chain: seq<PoPowHeader>, head: nat, all: seq<PoPowHeader>)
    requires forall x | 0 <= x < |chain| :: chain[x].header.height == x + 1
    requires head < |chain|
    requires all != [] && all[|all| - 1] == chain[head]
    requires forall i | 0 <= i < |all| :: InPlace(chain, all[i])
    requires forall i | 1 <= i < |all| :: all[i - 1].header.height < all[i].header.height
    ensures DrawnFrom(chain, HeadersOf(all) + HeadersOf(chain[head + 1..]))
    ensures var hs := HeadersOf(all) + HeadersOf(chain[head + 1..]); hs[|hs| - 1] == chain[|chain| - 1].header
  {
    var tail := HeadersOf(chain[head + 1..]);
    var hs := HeadersOf(all) + tail;
    forall i | 0 <= i < |hs|
      ensures hs[i] == if i < |all| then all[i].header else chain[head + 1 + (i - |all|)].header
    {
    }
  }

  /** The flattened proof is drawn from the chain, from block 1 to the tip. */
  lemma FlattenedIsDrawn(rules: Rules, chain: seq<PoPowHeader>, m: nat, k: nat, p: NipopowProof)
    requires ValidChain(rules, chain)
    requires 1 <= m && 1 <= k && m + k <= |chain|
    requires IsProofOf(rules, chain, m, k, p)
    ensures var hs := Flattened(p);
      && DrawnFrom(chain, hs)
      && hs != [] && hs[0] == chain[0].header && hs[|hs| - 1] == chain[|chain| - 1].header
    ensures p.prefix != [] && p.prefix[0] == chain[0]
    ensures forall i | 0 <= i < |Vectored(p)| :: InPlace(chain, Vectored(p)[i]) && (i >= 1 ==>
      Place(Vectored(p)[i]) >= 1)
  {
    var head := |chain| - k;
    var kept := KeptPositions(rules, chain, head, m, |chain[head].interlinks| - 1);
    KeptAreBelow(rules, chain, head, m, |chain[head].interlinks| - 1);
    FirstPlace(chain, kept, p.prefix);
    var all := Vectored(p);
    VectoredInPlace(chain, head, kept, p.prefix, all);
    DrawnTogether(chain, head, all);
    RisesFromFirst(all, |all|);
    PlacesAfterFirst(chain, all);
  }

  lemma PlacesAfterFirst(chain: seq<PoPowHeader>, all: seq<PoPowHeader>)
    requires all != [] && InPlace(chain, all[0])
    requires forall i | 1 <= i < |all| :: all[0].header.height < all[i].header.height
    ensures forall i | 1 <= i < |all| :: Place(all[i]) >= 1
  {
  }

  lemma VectoredInPlace(chain: seq<PoPowHeader>, head: nat, kept: set<int>, prefix: seq<PoPowHeader>,
    all: seq<PoPowHeader>)
    requires forall x | 0 <= x < |chain| :: chain[x].header.height == x + 1
    requires KeptBelow(chain, head, kept) && ListsPositions(chain, kept, prefix) && Ascending(prefix)
    requires all == prefix + [chain[head]]
    ensures forall i | 0 <= i < |all| :: InPlace(chain, all[i])
    ensures forall i | 1 <= i < |all| :: all[i - 1].header.height < all[i].header.height
  {
    forall i | 0 <= i < |all| ensures InPlace(chain, all[i]) {
      if i < |prefix| {
        PlaceOf(chain, kept, prefix, i);
      }
    }
    forall i | 1 <= i < |all| ensures all[i - 1].header.height < all[i].header.height {
      if i == |prefix| {
        PlaceOf(chain, kept, prefix, i - 1);
      }
    }
  }

  lemma {:induction false} RisesFromFirst(all: seq<PoPowHeader>, n: nat)
    requires n <= |all| && forall i | 1 <= i < |all| :: all[i - 1].header.height < all[i].header.height
    ensures forall i | 1 <= i < n :: all[0].header.height < all[i].header.height
  {
    if n > 1 {
      RisesFromFirst(all, n - 1);
      assert all[(n - 1) - 1].header.height < all[n - 1].header.height;
    }
  }

  /** The tail hangs from the suffix head. */
  lemma TailIsLinked(rules: Rules, chain: seq<PoPowHeader>, head: nat)
    requires ValidChain(rules, chain)
    requires head < |chain|
    ensures TailLinked(rules, chain[head].header, HeadersOf(chain[head + 1..]))
  {
    var tail := HeadersOf(chain[head + 1..]);
    forall i | 0 <= i < |tail|
      ensures TailLinkedAt(rules, chain[head].header, tail, i)
    {
      assert tail[i] == chain[head + 1 + i].header;
      assert i > 0 ==> tail[i - 1] == chain[head + i].header;
    }
  }

  lemma VectorsPass(rules: Rules, chain: seq<PoPowHeader>, p: NipopowProof)
    requires ValidChain(rules, chain)
    requires p.prefix != [] && p.prefix[0] == chain[0]
    requires forall i | 0 <= i < |Vectored(p)| :: InPlace(chain, Vectored(p)[i]) && (i >= 1 ==>
      Place(Vectored(p)[i]) >= 1)
    ensures forall i | 0 <= i < |Vectored(p)| :: VectorOk(rules, Vectored(p)[i])
    ensures AnchorOk(rules, p)
  {
    var genesis := (rules.digest)(chain[0].header);
    forall i | 0 <= i < |Vectored(p)|
      ensures VectorOk(rules, Vectored(p)[i])
      ensures i >= 1 ==> Vectored(p)[i].interlinks != [] && Vectored(p)[i].interlinks[0] == genesis
    {
      ChainVectorOk(rules, chain, Place(Vectored(p)[i]));
    }
    assert BlockHash(rules, chain[0].header) == Some(genesis);
  }

  /** Completeness: every proof built over a valid chain is accepted under its own parameters. */
  lemma BuiltProofAccepted(rules: Rules, chain: seq<PoPowHeader>, m: nat, k: nat, p: NipopowProof)
    requires ValidChain(rules, chain)
    requires 1 <= m && 1 <= k && m + k <= |chain|
    requires IsProofOf(rules, chain, m, k, p)
    ensures Accepts(rules, p, Params(m, k))
  {
    var head := |chain| - k;
    FlattenedIsDrawn(rules, chain, m, k, p);
    DrawnHeadersPass(rules, chain, Flattened(p));
    VectorsPass(rules, chain, p);
    PrefixConnects(rules, chain, head, m, |chain[head].interlinks| - 1, p.prefix);
    TailIsLinked(rules, chain, head);
  }

  /** What the prover answers over a complete reader, the verifier accepts. */
  method ProveAndVerify(reader: Reader, m: int, k: int, rules: Rules, ghost chain: seq<PoPowHeader>)
    returns (proof: NipopowProof, verdict: VerifyResult)
    requires ValidChain(rules, chain) && Complete(reader, rules, chain)
    requires 1 <= m <= MAX_NIPOPOW_PARAM && 1 <= k <= MAX_NIPOPOW_PARAM && m + k <= |chain|
    ensures verdict.Accepted? && verdict.tip == chain[|chain| - 1].header && verdict.suffixHead == chain[|chain| - k]
  {
    var built := ProveWithReader(reader, m, k, rules, chain);
    proof := built.value;
    BuiltProofAccepted(rules, chain, m, k, proof);
    FlattenedIsDrawn(rules, chain, m, k, proof);
    verdict := VerifyProof(rules, proof, Params(m, k));
  }
}
