/** The comparator: the best level's score above the lowest common ancestor. */
module Compare {
  import opened Wrappers
  import opened Headers
  import opened NipopowProofs
  import opened ProofVerifier

  function Pow2(n: nat): (p: nat)
    ensures p >= 1
  {
    if n == 0 then 1 else 2 * Pow2(n - 1)
  }

  /** How many headers have a level of at least `mu`. */
  function CountAt(rules: Rules, hs: seq<Header>, mu: nat): (n: nat) {
    if hs == [] then 0
    else CountAt(rules, hs[1..], mu) + if Reaches(rules, hs[0], mu) then 1 else 0
  }

  /** Level counts fall as the level rises. */
  lemma {:induction false} CountAntitone(rules: Rules, hs: seq<Header>, mu: nat, nu: nat)
    requires mu <= nu
    ensures CountAt(rules, hs, nu) <= CountAt(rules, hs, mu)
  {
    if hs != [] {
      CountAntitone(rules, hs[1..], mu, nu);
      assert Reaches(rules, hs[0], nu) ==> Reaches(rules, hs[0], mu);
    }
  }

  /** A level above 0 counts only while it holds at least `m` headers. */
  predicate Qualifies(rules: Rules, hs: seq<Header>, m: int, mu: nat) {
    mu == 0 || CountAt(rules, hs, mu) >= m
  }

  function ScoreAt(rules: Rules, hs: seq<Header>, mu: nat): nat {
    Pow2(mu) * CountAt(rules, hs, mu)
  }

  /** `best` is the greatest score over every qualifying level up to the cap. */
  ghost predicate IsBest(rules: Rules, hs: seq<Header>, m: int, best: nat) {
    && (exists mu: nat :: mu <= LEVEL_CAP && Qualifies(rules, hs, m, mu) && best == ScoreAt(rules, hs, mu))
    && (forall mu: nat | mu <= LEVEL_CAP && Qualifies(rules, hs, m, mu) :: ScoreAt(rules, hs, mu) <= best)
  }

  /** A level that does not qualify has none above it that does. */
  lemma NoneQualifiesAbove(rules: Rules, hs: seq<Header>, m: int, mu: nat, nu: nat)
    requires 1 <= mu <= nu && !Qualifies(rules, hs, m, mu)
    ensures !Qualifies(rules, hs, m, nu)
  {
    CountAntitone(rules, hs, mu, nu);
  }

  method CountLevel(rules: Rules, hs: seq<Header>, mu: nat) returns (n: nat)
    ensures n == CountAt(rules, hs, mu)
  {
    n := 0;
    var i := |hs|;
    while i > 0
      invariant 0 <= i <= |hs|
      invariant n == CountAt(rules, hs[i..], mu)
    {
      i := i - 1;
      assert hs[i..][1..] == hs[i + 1..];
      if Reaches(rules, hs[i], mu) {
        n := n + 1;
      }
    }
  }

  /** Stops at the first level below `m`; no level past it qualifies. */
  method BestArg(rules: Rules, hs: seq<Header>, m: int) returns (best: nat)
    ensures IsBest(rules, hs, m, best)
  {
    var registered := CountLevel(rules, hs, 0);
    var acc: seq<(nat, nat)> := [(0, registered)];
    var mu := 1;
    while mu <= LEVEL_CAP
      invariant 1 <= mu <= LEVEL_CAP + 1
      invariant |acc| == mu
      invariant forall nu: nat | nu < mu :: acc[nu] == (nu, CountAt(rules, hs, nu)) && Qualifies(rules, hs, m, nu)
    {
      var count := CountLevel(rules, hs, mu);
      if count < m {
        break;
      }
      acc := acc + [(mu, count)];
      mu := mu + 1;
    }
    forall nu: nat | mu <= nu <= LEVEL_CAP
      ensures !Qualifies(rules, hs, m, nu)
    {
      NoneQualifiesAbove(rules, hs, m, mu, nu);
    }
    best := 0;
    ghost var at: nat := 0;
    for i := 0 to |acc|
      invariant best == 0 || (at < i && best == ScoreAt(rules, hs, at))
      invariant forall nu: nat | nu < i :: ScoreAt(rules, hs, nu) <= best
    {
      var score := Pow2(acc[i].0) * acc[i].1;
      if score > best {
        best := score;
        at := i;
      }
    }
    if best == 0 {
      assert ScoreAt(rules, hs, 0) == 0;
      assert Qualifies(rules, hs, m, 0);
    } else {
      assert Qualifies(rules, hs, m, at);
    }
  }

  lemma BestIsUnique(rules: Rules, hs: seq<Header>, m: int, a: nat, b: nat)
    requires IsBest(rules, hs, m, a) && IsBest(rules, hs, m, b)
    ensures a == b
  {
  }

  lemma {:induction false} CountConcat(rules: Rules, hs: seq<Header>, more: seq<Header>, mu: nat)
    ensures CountAt(rules, hs + more, mu) == CountAt(rules, hs, mu) + CountAt(rules, more, mu)
  {
    if hs == [] {
      assert hs + more == more;
    } else {
      assert (hs + more)[1..] == hs[1..] + more;
      CountConcat(rules, hs[1..], more, mu);
    }
  }

  /** More headers on top never lower a chain's score. */
  lemma ExtensionNeverLowers(rules: Rules, hs: seq<Header>, more: seq<Header>, m: int, best: nat, extended: nat)
    requires IsBest(rules, hs, m, best) && IsBest(rules, hs + more, m, extended)
    ensures best <= extended
  {
    var mu: nat :| mu <= LEVEL_CAP && Qualifies(rules, hs, m, mu) && best == ScoreAt(rules, hs, mu);
    ScoreGrows(rules, hs, more, m, mu);
    BestBounds(rules, hs + more, m, extended, mu);
  }

  lemma BestBounds(rules: Rules, hs: seq<Header>, m: int, best: nat, mu: nat)
    requires IsBest(rules, hs, m, best)
    requires mu <= LEVEL_CAP && Qualifies(rules, hs, m, mu)
    ensures ScoreAt(rules, hs, mu) <= best
  {
  }

  lemma ScoreGrows(rules: Rules, hs: seq<Header>, more: seq<Header>, m: int, mu: nat)
    requires Qualifies(rules, hs, m, mu)
    ensures Qualifies(rules, hs + more, m, mu) && ScoreAt(rules, hs, mu) <= ScoreAt(rules, hs + more, mu)
  {
    CountConcat(rules, hs, more, mu);
    ProductGrows(Pow2(mu), CountAt(rules, hs, mu), CountAt(rules, more, mu));
  }

  lemma ProductGrows(p: nat, a: nat, b: nat)
    ensures p * a <= p * (a + b)
  {
  }

  // ---------------------------------------------------------------------------
  // The lowest common ancestor
  // ---------------------------------------------------------------------------

  ghost predicate Shares(rules: Rules, h: Header, hs: seq<Header>) {
    BlockHash(rules, h).Some? && exists i :: 0 <= i < |hs| && BlockHash(rules, hs[i]) == BlockHash(rules, h)
  }

  /** The last header of `left` that `right` holds by hash. */
  ghost function LastShared(rules: Rules, left: seq<Header>, right: seq<Header>): (lca: Option<Header>) {
    if left == [] then None
    else if Shares(rules, left[|left| - 1], right) then Some(left[|left| - 1])
    else LastShared(rules, left[..|left| - 1], right)
  }

  method LowestCommonAncestor(rules: Rules, left: seq<Header>, right: seq<Header>) returns (lca: Option<Header>)
    ensures lca == LastShared(rules, left, right)
  {
    var rightSet: map<Hash, Header> := map[];
    for i := 0 to |right|
      invariant forall hash :: hash in rightSet <==> exists j :: 0 <= j < i && BlockHash(rules, right[j]) == Some(hash)
    {
      match BlockHash(rules, right[i])
      case None =>
      case Some(hash) => rightSet := rightSet[hash := right[i]];
    }
    lca := None;
    for i := 0 to |left|
      invariant lca == LastShared(rules, left[..i], right)
    {
      assert left[..i + 1][..i] == left[..i];
      match BlockHash(rules, left[i])
      case None =>
      case Some(hash) =>
        if hash in rightSet {
          lca := Some(left[i]);
        }
    }
    assert left[..|left|] == left;
  }

  lemma {:induction false} LastSharedIs(rules: Rules, left: seq<Header>, right: seq<Header>)
    ensures match LastShared(rules, left, right)
      case None => forall i | 0 <= i < |left| :: !Shares(rules, left[i], right)
      case Some(lca) => exists i :: LastAt(rules, left, right, i) && left[i] == lca
  {
    if left != [] {
      var last := |left| - 1;
      if Shares(rules, left[last], right) {
        assert LastAt(rules, left, right, last);
      } else {
        var init := left[..last];
        LastSharedIs(rules, init, right);
        if LastShared(rules, init, right).Some? {
          var i :| LastAt(rules, init, right, i) && init[i] == LastShared(rules, init, right).value;
          assert LastAt(rules, left, right, i);
        }
      }
    }
  }

  ghost predicate LastAt(rules: Rules, left: seq<Header>, right: seq<Header>, i: int) {
    && 0 <= i < |left| && Shares(rules, left[i], right)
    && (forall j | i < j < |left| :: !Shares(rules, left[j], right))
  }

  /** Two headers of the chains with one hash are one header. */
  ghost predicate CollisionFree(rules: Rules, left: seq<Header>, right: seq<Header>) {
    forall i, j | 0 <= i < |left| && 0 <= j < |right| && BlockHash(rules, left[i]) == BlockHash(rules, right[j]) &&
      BlockHash(rules, left[i]).Some? :: left[i] == right[j]
  }

  ghost predicate Rising(hs: seq<Header>) {
    forall i, j | 0 <= i < j < |hs| :: hs[i].height < hs[j].height
  }

  lemma SharedHeaderIsHeld(rules: Rules, left: seq<Header>, right: seq<Header>, h: Header)
    requires CollisionFree(rules, left, right)
    requires h in left && Shares(rules, h, right)
    ensures h in right && Shares(rules, h, left)
  {
  }

  lemma NotAboveLastShared(rules: Rules, left: seq<Header>, right: seq<Header>, h: Header)
    requires Rising(left)
    requires h in left && Shares(rules, h, right)
    ensures LastShared(rules, left, right).Some? && h.height <= LastShared(rules, left, right).value.height
  {
    LastSharedIs(rules, left, right);
  }

  lemma LcaNoHigher(rules: Rules, left: seq<Header>, right: seq<Header>)
    requires Rising(right)
    requires CollisionFree(rules, left, right)
    requires LastShared(rules, left, right).Some?
    ensures LastShared(rules, left, right).value in left && LastShared(rules, left, right).value in right
    ensures LastShared(rules, right, left).Some?
    ensures LastShared(rules, left, right).value.height <= LastShared(rules, right, left).value.height
  {
    LastSharedIs(rules, left, right);
    var x := LastShared(rules, left, right).value;
    SharedHeaderIsHeld(rules, left, right, x);
    NotAboveLastShared(rules, right, left, x);
  }

  /** Whichever chain is walked, the ancestor is the highest header they share. */
  lemma LcaSymmetric(rules: Rules, left: seq<Header>, right: seq<Header>)
    requires Rising(left) && Rising(right)
    requires CollisionFree(rules, left, right)
    ensures LastShared(rules, left, right) == LastShared(rules, right, left)
  {
    if LastShared(rules, left, right).Some? {
      LcaNoHigher(rules, left, right);
      LcaNoHigher(rules, right, left);
    }
    if LastShared(rules, right, left).Some? {
      LcaNoHigher(rules, right, left);
    }
  }

  // ---------------------------------------------------------------------------
  // The comparison
  // ---------------------------------------------------------------------------

  datatype Winner = A | B | Tie

  datatype CompareResult =
    | Invalid
    | NoCommonAncestor
    | Compared(verdict: Winner, scoreA: nat, scoreB: nat, lca: Header)

  function Above(hs: seq<Header>, height: int): (above: seq<Header>)
    ensures forall h :: h in above <==> h in hs && h.height > height
  {
    if hs == [] then []
    else (if hs[0].height > height then [hs[0]] else []) + Above(hs[1..], height)
  }

  ghost predicate IsComparison(rules: Rules, a: NipopowProof, b: NipopowProof, params: Params, r: CompareResult) {
    if !Accepts(rules, a, params) || !Accepts(rules, b, params) then r.Invalid?
    else match LastShared(rules, Flattened(a), Flattened(b))
      case None => r.NoCommonAncestor?
      case Some(lca) =>
        && r.Compared?
        && r.lca == lca
        && IsBest(rules, Above(Flattened(a), lca.height), params.m, r.scoreA)
        && IsBest(rules, Above(Flattened(b), lca.height), params.m, r.scoreB)
        && r.verdict == if r.scoreA > r.scoreB then A else if r.scoreB > r.scoreA then B else Tie
  }

  method CompareProofs(rules: Rules, a: NipopowProof, b: NipopowProof, params: Params) returns (r: CompareResult)
    ensures IsComparison(rules, a, b, params, r)
  {
    var aResult := VerifyProof(rules, a, params);
    var bResult := VerifyProof(rules, b, params);
    if aResult.Refused? || bResult.Refused? {
      return Invalid;
    }
    var aChain := Flattened(a);
    var bChain := Flattened(b);
    var lca := LowestCommonAncestor(rules, aChain, bChain);
    if lca.None? {
      return NoCommonAncestor;
    }
    var scoreA := BestArg(rules, Above(aChain, lca.value.height), params.m);
    var scoreB := BestArg(rules, Above(bChain, lca.value.height), params.m);
    if scoreA > scoreB {
      return Compared(A, scoreA, scoreB, lca.value);
    }
    if scoreB > scoreA {
      return Compared(B, scoreA, scoreB, lca.value);
    }
    r := Compared(Tie, scoreA, scoreB, lca.value);
  }

  function Swapped(r: CompareResult): CompareResult {
    match r
    case Compared(verdict, scoreA, scoreB, lca) =>
      Compared(match verdict case A => B case B => A case Tie => Tie, scoreB, scoreA, lca)
    case _ => r
  }

  lemma {:induction false} HeightsRise(rules: Rules, hs: seq<Header>, i: nat, j: nat)
    requires HeightsOk(rules, hs)
    requires i < j < |hs|
    ensures hs[i].height < hs[j].height
    decreases j
  {
    if i < j - 1 {
      HeightsRise(rules, hs, i, j - 1);
    }
  }

  lemma AcceptedRise(rules: Rules, p: NipopowProof, params: Params)
    requires Accepts(rules, p, params)
    ensures Rising(Flattened(p))
  {
    var hs := Flattened(p);
    forall i, j | 0 <= i < j < |hs|
      ensures hs[i].height < hs[j].height
    {
      HeightsRise(rules, hs, i, j);
    }
  }

  /** Exchanging the proofs exchanges the verdict and the scores, and keeps the ancestor. */
  lemma ComparisonAntisymmetric(rules: Rules, a: NipopowProof, b: NipopowProof, params: Params, ab: CompareResult,
    ba: CompareResult)
    requires CollisionFree(rules, Flattened(a), Flattened(b))
    requires IsComparison(rules, a, b, params, ab)
    requires IsComparison(rules, b, a, params, ba)
    ensures ba == Swapped(ab)
  {
    if Accepts(rules, a, params) && Accepts(rules, b, params) {
      AcceptedRise(rules, a, params);
      AcceptedRise(rules, b, params);
      LcaSymmetric(rules, Flattened(a), Flattened(b));
      if ab.Compared? {
        BestIsUnique(rules, Above(Flattened(a), ab.lca.height), params.m, ab.scoreA, ba.scoreB);
        BestIsUnique(rules, Above(Flattened(b), ab.lca.height), params.m, ab.scoreB, ba.scoreA);
      }
    }
  }

  /** Among accepted proofs under one block 1 there is always a common ancestor. */
  lemma PinnedProofsShareBlockOne(rules: Rules, a: NipopowProof, b: NipopowProof, params: Params, r: CompareResult)
    requires rules.genesisId != ""
    requires Accepts(rules, a, params) && Accepts(rules, b, params)
    requires IsComparison(rules, a, b, params, r)
    ensures r.Compared?
  {
    var left, right := Flattened(a), Flattened(b);
    assert left[0] == a.prefix[0].header && right[0] == b.prefix[0].header;
    assert BlockHash(rules, left[0]) == BlockHash(rules, right[0]) == Some(rules.genesisId);
    LastSharedIs(rules, left, right);
    assert Shares(rules, left[0], right);
  }
}
