/**
 * The prover's walk: superchains from the top level down, each raising the
 * height the next one stops at, then the level-0 sweep.
 */
module Prover {
  import opened Wrappers
  import opened Headers
  import opened NipopowProofs

  datatype Reader = Reader(
    chainHeight: nat,
    popowHeaderByHash: Hash -> Option<PoPowHeader>,
    popowHeaderAtHeight: int -> Option<PoPowHeader>,
    lastHeaders: nat -> seq<Header>)

  datatype ProofBuildError = InvalidM | InvalidK | ChainTooShort | MissingPopowHeader

  /** Every answer is the chain's own, or none. */
  ghost predicate Sound(reader: Reader, rules: Rules, chain: seq<PoPowHeader>) {
    && reader.chainHeight == |chain|
    && (forall hash | (reader.popowHeaderByHash)(hash).Some? ::
          exists x :: 0 <= x < |chain| && (rules.digest)(chain[x].header) == hash
              && (reader.popowHeaderByHash)(hash).value == chain[x])
    && (forall height | (reader.popowHeaderAtHeight)(height).Some? ::
          1 <= height <= |chain| && (reader.popowHeaderAtHeight)(height).value == chain[height - 1])
    && (forall n: nat | n <= |chain| ::
          |(reader.lastHeaders)(n)| <= n &&
          (|(reader.lastHeaders)(n)| == n ==> (reader.lastHeaders)(n) == HeadersOf(chain[|chain| - n..])))
  }

  /** A sound reader with no gap. */
  ghost predicate Complete(reader: Reader, rules: Rules, chain: seq<PoPowHeader>) {
    && Sound(reader, rules, chain)
    && (forall x | 0 <= x < |chain| :: (reader.popowHeaderByHash)((rules.digest)(chain[x].header)).Some?)
    && (forall height | 1 <= height <= |chain| :: (reader.popowHeaderAtHeight)(height).Some?)
    && (forall n: nat | n <= |chain| :: |(reader.lastHeaders)(n)| == n)
  }

  // ---------------------------------------------------------------------------
  // What the walk keeps
  // ---------------------------------------------------------------------------

  /** The headers from `lo` up to `hi` that reach `mu`, ascending. */
  ghost function LevelChain(rules: Rules, chain: seq<PoPowHeader>, lo: nat, hi: nat, mu: nat): (xs: seq<nat>)
    requires hi <= |chain|
    ensures forall j | 0 <= j < |xs| :: lo <= xs[j] < hi
    decreases hi - lo
  {
    if hi <= lo then []
    else (if Reaches(rules, chain[lo].header, mu) then [lo] else []) + LevelChain(rules, chain, lo + 1, hi, mu)
  }

  lemma {:induction false} InLevelChain(rules: Rules, chain: seq<PoPowHeader>, lo: nat, hi: nat, mu: nat, x: nat)
    requires hi <= |chain|
    ensures x in LevelChain(rules, chain, lo, hi, mu) <==> lo <= x < hi && Reaches(rules, chain[x].header, mu)
    decreases hi - lo
  {
    if lo < hi {
      InLevelChain(rules, chain, lo + 1, hi, mu, x);
    }
  }

  function Max(a: nat, b: nat): nat { if a < b then b else a }

  ghost function Elements(xs: seq<nat>): set<int> { set x | x in xs }

  /** The positions from `lo` up to `hi`. */
  ghost function Span(lo: int, hi: int): set<int> { set x | lo <= x < hi && InSpan(x, lo, hi) }

  ghost predicate InSpan(x: int, lo: int, hi: int) { lo <= x < hi }

  /** The position the next level's walk stops at, and the positions the levels so far keep. */
  datatype Walk = Walk(anchor: nat, kept: set<int>)

  /**
   * The walk of the levels above `mu`, the top level being `top`: it stops at
   * block 1 until a level holds more than `m` headers, and from then on at the
   * `m`-th from last of the latest such level.
   */
  ghost function WalkAbove(rules: Rules, chain: seq<PoPowHeader>, head: nat, m: nat, top: nat, mu: nat): (w: Walk)
    requires head <= |chain|
    requires 1 <= m
    ensures w.anchor == 0 || w.anchor < head
    decreases top - mu
  {
    if top <= mu then Walk(0, {})
    else
      var above := WalkAbove(rules, chain, head, m, top, mu + 1);
      var xs := LevelChain(rules, chain, Max(above.anchor, 1), head, mu + 1);
      Walk(if m < |xs| then xs[|xs| - m] else above.anchor, above.kept + Elements(xs))
  }

  /** What the walk keeps below the suffix head: its levels, the sweep and block 1. */
  ghost function KeptPositions(rules: Rules, chain: seq<PoPowHeader>, head: nat, m: nat, top: nat): (kept: set<int>)
    requires head <= |chain| && 1 <= m
  {
    var w := WalkAbove(rules, chain, head, m, top, 0);
    w.kept + Span(w.anchor, head) + {0}
  }

  ghost predicate Ascending(phs: seq<PoPowHeader>) {
    forall i, j | 0 <= i < j < |phs| :: phs[i].header.height < phs[j].header.height
  }

  /** `phs` lists exactly the chain's headers at the positions in `kept`. */
  ghost predicate ListsPositions(chain: seq<PoPowHeader>, kept: set<int>, phs: seq<PoPowHeader>) {
    && (forall x | x in kept :: 0 <= x < |chain| && chain[x] in phs)
    && (forall ph | ph in phs :: exists x :: x in kept && 0 <= x < |chain| && chain[x] == ph)
  }

  /** The prefix holds exactly the kept headers, ascending; the suffix is the chain's last `k`. */
  ghost predicate IsProofOf(rules: Rules, chain: seq<PoPowHeader>, m: nat, k: nat, p: NipopowProof)
    requires 1 <= m && 1 <= k && m + k <= |chain|
  {
    var head := |chain| - k;
    var top := |chain[head].interlinks| - 1;
    && p.m == m && p.k == k
    && p.suffixHead == chain[head]
    && p.suffixTail == HeadersOf(chain[head + 1..])
    && top >= 0
    && Ascending(p.prefix)
    && ListsPositions(chain, KeptPositions(rules, chain, head, m, top), p.prefix)
  }

  // ---------------------------------------------------------------------------
  // The walk of one level
  // ---------------------------------------------------------------------------

  lemma {:induction false} SkipUnreached(rules: Rules, chain: seq<PoPowHeader>, lo: nat, next: nat, hi: nat, mu: nat)
    requires lo <= next <= hi <= |chain|
    requires forall x | lo <= x < next :: !Reaches(rules, chain[x].header, mu)
    ensures LevelChain(rules, chain, lo, hi, mu) == LevelChain(rules, chain, next, hi, mu)
    decreases next - lo
  {
    if lo < next {
      SkipUnreached(rules, chain, lo + 1, next, hi, mu);
    }
  }

  ghost predicate Lists(chain: seq<PoPowHeader>, phs: seq<PoPowHeader>, xs: seq<nat>) {
    && |phs| == |xs|
    && forall j | 0 <= j < |xs| :: xs[j] < |chain| && phs[j] == chain[xs[j]]
  }

  /** Slot `mu` of a vector, where it stands. */
  function SlotOf(links: seq<Hash>, mu: nat): Option<Hash> {
    if mu < |links| then Some(links[mu]) else None
  }

  ghost predicate SlotIsLatest(rules: Rules, chain: seq<PoPowHeader>, x: nat, mu: nat, slot: Option<Hash>)
    requires x <= |chain|
  {
    var y := Latest(rules, chain, x, mu);
    if y == 0 then slot.None? else slot == Some((rules.digest)(chain[y].header))
  }

  lemma SlotsNameLatest(rules: Rules, chain: seq<PoPowHeader>, x: nat, mu: nat)
    requires ValidChain(rules, chain)
    requires 1 <= x < |chain| && 1 <= mu
    ensures SlotIsLatest(rules, chain, x, mu, SlotOf(chain[x].interlinks, mu))
  {
    InterlinksNameLatest(rules, chain, x);
  }

  /** One hop back: the header the slot names, if the reader answers it, is the latest of its level before `at`. */
  lemma {:induction false} HopBack(reader: Reader, rules: Rules, chain: seq<PoPowHeader>, at: nat, mu: nat, hash: Hash)
    requires ValidChain(rules, chain) && Sound(reader, rules, chain)
    requires 1 <= at < |chain| && 1 <= mu
    requires SlotIsLatest(rules, chain, at, mu, Some(hash))
    ensures (reader.popowHeaderByHash)(hash).None? ==> !Complete(reader, rules, chain)
    ensures (reader.popowHeaderByHash)(hash).Some? ==>
      var y := Latest(rules, chain, at, mu);
      var ph := (reader.popowHeaderByHash)(hash).value;
      && 1 <= y < at
      && ph == chain[y]
      && ph.header.height == y + 1
      && SlotIsLatest(rules, chain, y, mu, SlotOf(ph.interlinks, mu))
  {
    var y := Latest(rules, chain, at, mu);
    if (reader.popowHeaderByHash)(hash).Some? {
      var x :| 0 <= x < |chain| && (rules.digest)(chain[x].header) == hash && (reader.popowHeaderByHash)(hash).value
          == chain[x];
      assert x == y;
      SlotsNameLatest(rules, chain, y, mu);
    }
  }

  lemma {:induction false} HopCollects(rules: Rules, chain: seq<PoPowHeader>, at: nat, head: nat, mu: nat)
    requires 1 <= at <= head <= |chain|
    ensures var y := Latest(rules, chain, at, mu);
      && (forall lo: nat | y < lo <= at :: LevelChain(rules, chain, lo, head, mu) == LevelChain(rules, chain, at, head,
         mu))
      && (y >= 1 ==> LevelChain(rules, chain, y, head, mu) == [y] + LevelChain(rules, chain, at, head, mu))
  {
    var y := Latest(rules, chain, at, mu);
    forall lo: nat | y < lo <= at
      ensures LevelChain(rules, chain, lo, head, mu) == LevelChain(rules, chain, at, head, mu)
    {
      SkipUnreached(rules, chain, lo, at, head, mu);
    }
    if y >= 1 {
      assert LevelChain(rules, chain, y + 1, head, mu) == LevelChain(rules, chain, at, head, mu);
    }
  }

  lemma FloorOf(anchoringHeight: nat)
    requires anchoringHeight >= 1
    ensures Max(anchoringHeight - 1, 1) == if anchoringHeight == 1 then 1 else anchoringHeight - 1
  {
  }

  lemma NothingBefore(rules: Rules, chain: seq<PoPowHeader>, at: nat, head: nat, mu: nat, anchoringHeight: nat)
    requires 1 <= at <= head <= |chain| && anchoringHeight - 1 <= at && 1 <= anchoringHeight
    requires SlotIsLatest(rules, chain, at, mu, None)
    ensures LevelChain(rules, chain, Max(anchoringHeight - 1, 1), head, mu) == LevelChain(rules, chain, at, head, mu)
  {
    HopCollects(rules, chain, at, head, mu);
  }

  lemma ListsNone(rules: Rules, chain: seq<PoPowHeader>, head: nat, mu: nat)
    requires head <= |chain|
    ensures Lists(chain, [], LevelChain(rules, chain, head, head, mu))
  {
  }

  lemma ListsOneMore(chain: seq<PoPowHeader>, phs: seq<PoPowHeader>, xs: seq<nat>, ph: PoPowHeader, x: nat)
    requires Lists(chain, phs, xs)
    requires x < |chain| && ph == chain[x]
    ensures Lists(chain, [ph] + phs, [x] + xs)
  {
  }

  /** What a hop's answer leaves: the level's chain down to the anchor, or one header more of it. */
  lemma HopStep(reader: Reader, rules: Rules, chain: seq<PoPowHeader>, at: nat, head: nat, mu: nat,
    anchoringHeight: nat,
                hash: Hash, levelChain: seq<PoPowHeader>, ph: PoPowHeader)
    requires ValidChain(rules, chain) && Sound(reader, rules, chain)
    requires 1 <= at <= head < |chain| && 1 <= mu && 1 <= anchoringHeight <= head && anchoringHeight - 1 <= at
    requires SlotIsLatest(rules, chain, at, mu, Some(hash))
    requires (reader.popowHeaderByHash)(hash) == Some(ph)
    requires Lists(chain, levelChain, LevelChain(rules, chain, at, head, mu))
    ensures var y := Latest(rules, chain, at, mu);
      && 1 <= y < at
      && SlotIsLatest(rules, chain, y, mu, SlotOf(ph.interlinks, mu))
      && ph.header.height == y + 1
      && Lists(chain, [ph] + levelChain, LevelChain(rules, chain, y, head, mu))
    ensures ph.header.height < anchoringHeight ==>
      Lists(chain, levelChain, LevelChain(rules, chain, Max(anchoringHeight - 1, 1), head, mu))
  {
    HopBack(reader, rules, chain, at, mu, hash);
    HopCollects(rules, chain, at, head, mu);
    FloorOf(anchoringHeight);
    ListsOneMore(chain, levelChain, LevelChain(rules, chain, at, head, mu), ph, Latest(rules, chain, at, mu));
  }

  /** Level `mu`'s chain, from the suffix head's slot back to the anchoring height. */
  method WalkLevel(reader: Reader, suffixHead: PoPowHeader, mu: nat, anchoringHeight: nat,
                   ghost rules: Rules, ghost chain: seq<PoPowHeader>, ghost head: nat)
    returns (r: Result<seq<PoPowHeader>, ProofBuildError>)
    requires ValidChain(rules, chain) && Sound(reader, rules, chain)
    requires 1 <= head < |chain| && suffixHead == chain[head]
    requires 1 <= mu && 1 <= anchoringHeight <= head
    ensures r.Success? ==> Lists(chain, r.value, LevelChain(rules, chain, Max(anchoringHeight - 1, 1), head, mu))
    ensures r.Failure? ==> r.error.MissingPopowHeader? && !Complete(reader, rules, chain)
  {
    var levelChain: seq<PoPowHeader> := [];
    var nextHash := SlotOf(suffixHead.interlinks, mu);
    ghost var at := head;
    SlotsNameLatest(rules, chain, head, mu);
    ListsNone(rules, chain, head, mu);
    while nextHash.Some?
      invariant 1 <= at <= head
      invariant anchoringHeight - 1 <= at
      invariant SlotIsLatest(rules, chain, at, mu, nextHash)
      invariant Lists(chain, levelChain, LevelChain(rules, chain, at, head, mu))
      decreases at
    {
      var answer := (reader.popowHeaderByHash)(nextHash.value);
      if answer.None? {
        HopBack(reader, rules, chain, at, mu, nextHash.value);
        return Failure(MissingPopowHeader);
      }
      var ph := answer.value;
      HopStep(reader, rules, chain, at, head, mu, anchoringHeight, nextHash.value, levelChain, ph);
      if ph.header.height < anchoringHeight {
        return Success(levelChain);
      }
      levelChain := [ph] + levelChain;
      nextHash := SlotOf(ph.interlinks, mu);
      at := Latest(rules, chain, at, mu);
    }
    NothingBefore(rules, chain, at, head, mu, anchoringHeight);
    r := Success(levelChain);
  }

  // ---------------------------------------------------------------------------
  // The collected map
  // ---------------------------------------------------------------------------

  /** `collected` holds, under their heights, exactly the chain's headers at the positions in `kept`. */
  ghost predicate Holds(chain: seq<PoPowHeader>, collected: map<int, PoPowHeader>, kept: set<int>) {
    && (forall h | h in collected :: 1 <= h <= |chain| && collected[h] == chain[h - 1] && h - 1 in kept)
    && (forall x | x in kept :: x + 1 in collected)
  }

  lemma HoldsOneMore(chain: seq<PoPowHeader>, collected: map<int, PoPowHeader>, kept: set<int>, ph: PoPowHeader, x: nat)
    requires forall i | 0 <= i < |chain| :: chain[i].header.height == i + 1
    requires Holds(chain, collected, kept) && x < |chain| && ph == chain[x]
    ensures Holds(chain, collected[ph.header.height := ph], kept + {x})
  {
  }

  lemma ElementsOneMore(xs: seq<nat>, j: nat)
    requires j < |xs|
    ensures Elements(xs[..j + 1]) == Elements(xs[..j]) + {xs[j]}
  {
    assert xs[..j + 1] == xs[..j] + [xs[j]];
  }

  /** `collected.set` for every header of a level's chain. */
  method CollectAll(collected: map<int, PoPowHeader>, levelChain: seq<PoPowHeader>,
                    ghost chain: seq<PoPowHeader>, ghost xs: seq<nat>, ghost kept: set<int>)
    returns (r: map<int, PoPowHeader>)
    requires forall x | 0 <= x < |chain| :: chain[x].header.height == x + 1
    requires Lists(chain, levelChain, xs)
    requires Holds(chain, collected, kept)
    ensures Holds(chain, r, kept + Elements(xs))
  {
    r := collected;
    for j := 0 to |levelChain|
      invariant Holds(chain, r, kept + Elements(xs[..j]))
    {
      HoldsOneMore(chain, r, kept + Elements(xs[..j]), levelChain[j], xs[j]);
      ElementsOneMore(xs, j);
      assert kept + Elements(xs[..j]) + {xs[j] as int} == kept + Elements(xs[..j + 1]);
      r := r[levelChain[j].header.height := levelChain[j]];
    }
    assert xs[..|xs|] == xs;
  }

  /** Where the walk stands above level `mu`: what is collected, and the height it stops at. */
  ghost predicate WalkedAbove(rules: Rules, chain: seq<PoPowHeader>, head: nat, m: nat, mu: nat,
                              collected: map<int, PoPowHeader>, anchoringHeight: int)
    requires head < |chain| && 1 <= m
  {
    var top := |chain[head].interlinks| - 1;
    && mu <= top
    && anchoringHeight == WalkAbove(rules, chain, head, m, top, mu).anchor + 1
    && Holds(chain, collected, WalkAbove(rules, chain, head, m, top, mu).kept)
  }

  /** One level of the walk. */
  method WalkAndRaise(reader: Reader, suffixHead: PoPowHeader, m: nat, mu: nat,
                      collected: map<int, PoPowHeader>, anchoringHeight: nat,
                      ghost rules: Rules, ghost chain: seq<PoPowHeader>, ghost head: nat)
    returns (r: Result<(map<int, PoPowHeader>, nat), ProofBuildError>)
    requires ValidChain(rules, chain) && Sound(reader, rules, chain)
    requires 1 <= head < |chain| && suffixHead == chain[head] && 1 <= m && 1 <= mu
    requires WalkedAbove(rules, chain, head, m, mu, collected, anchoringHeight)
    ensures r.Failure? ==> r.error.MissingPopowHeader? && !Complete(reader, rules, chain)
    ensures r.Success? ==> WalkedAbove(rules, chain, head, m, mu - 1, r.value.0, r.value.1)
  {
    var walked := WalkLevel(reader, suffixHead, mu, anchoringHeight, rules, chain, head);
    if walked.Failure? {
      return Failure(walked.error);
    }
    var raised := Raise(m, mu, collected, anchoringHeight, walked.value, rules, chain, head);
    r := Success(raised);
  }

  /** A walked level collected, and the height raised where the level holds more than `m`. */
  method Raise(m: nat, mu: nat, collected: map<int, PoPowHeader>, anchoringHeight: nat, levelChain: seq<PoPowHeader>,
               ghost rules: Rules, ghost chain: seq<PoPowHeader>, ghost head: nat)
    returns (r: (map<int, PoPowHeader>, nat))
    requires forall x | 0 <= x < |chain| :: chain[x].header.height == x + 1
    requires head < |chain| && 1 <= m && 1 <= mu
    requires WalkedAbove(rules, chain, head, m, mu, collected, anchoringHeight)
    requires Lists(chain, levelChain, LevelChain(rules, chain, Max(anchoringHeight - 1, 1), head, mu))
    ensures WalkedAbove(rules, chain, head, m, mu - 1, r.0, r.1)
  {
    ghost var above := WalkAbove(rules, chain, head, m, |chain[head].interlinks| - 1, mu);
    ghost var xs := LevelChain(rules, chain, Max(above.anchor, 1), head, mu);
    var raised := CollectAll(collected, levelChain, chain, xs, above.kept);
    if m < |levelChain| {
      r := (raised, levelChain[|levelChain| - m].header.height);
    } else {
      r := (raised, anchoringHeight);
    }
  }

  /** The level walk: every level from the top one down to 1. */
  method WalkLevels(reader: Reader, suffixHead: PoPowHeader, m: nat,
                    ghost rules: Rules, ghost chain: seq<PoPowHeader>, ghost head: nat)
    returns (r: Result<(map<int, PoPowHeader>, nat), ProofBuildError>)
    requires ValidChain(rules, chain) && Sound(reader, rules, chain)
    requires 1 <= head < |chain| && suffixHead == chain[head] && 1 <= m
    ensures r.Failure? ==> r.error.MissingPopowHeader? && !Complete(reader, rules, chain)
    ensures r.Success? ==> WalkedAbove(rules, chain, head, m, 0, r.value.0, r.value.1)
  {
    HeadHasSlots(rules, chain, head);
    var state := (map[], 1);
    var mu: nat := |suffixHead.interlinks| - 1;
    while mu >= 1
      invariant WalkedAbove(rules, chain, head, m, mu, state.0, state.1)
    {
      var next := WalkAndRaise(reader, suffixHead, m, mu, state.0, state.1, rules, chain, head);
      if next.Failure? {
        return Failure(next.error);
      }
      state := next.value;
      mu := mu - 1;
    }
    r := Success(state);
  }

  lemma HeadHasSlots(rules: Rules, chain: seq<PoPowHeader>, head: nat)
    requires ValidChain(rules, chain) && 1 <= head < |chain|
    ensures |chain[head].interlinks| >= 1
    ensures forall x | 0 <= x < |chain| :: chain[x].header.height == x + 1
  {
    InterlinksNameLatest(rules, chain, head);
  }

  lemma SpanOneMore(lo: int, hi: int)
    requires lo <= hi
    ensures Span(lo, hi + 1) == Span(lo, hi) + {hi}
  {
    forall x: int
      ensures x in Span(lo, hi + 1) <==> x in Span(lo, hi) + {hi}
    {
      assert InSpan(x, lo, hi + 1) <==> InSpan(x, lo, hi) || x == hi;
    }
  }

  /** Level 0: every header from the anchoring height up to the suffix head. */
  method Sweep(reader: Reader, collected: map<int, PoPowHeader>, anchoringHeight: nat, headHeight: nat,
               ghost rules: Rules, ghost chain: seq<PoPowHeader>, ghost kept: set<int>)
    returns (r: Result<map<int, PoPowHeader>, ProofBuildError>)
    requires Sound(reader, rules, chain)
    requires 1 <= anchoringHeight <= headHeight <= |chain|
    requires Holds(chain, collected, kept)
    ensures r.Failure? ==> r.error.MissingPopowHeader? && !Complete(reader, rules, chain)
    ensures r.Success? ==> Holds(chain, r.value, kept + Span(anchoringHeight - 1, headHeight - 1))
  {
    var all := collected;
    for h := anchoringHeight to headHeight
      invariant Holds(chain, all, kept + Span(anchoringHeight - 1, h - 1))
    {
      var answer := (reader.popowHeaderAtHeight)(h);
      if answer.None? {
        return Failure(MissingPopowHeader);
      }
      SpanOneMore(anchoringHeight - 1, h - 1);
      all := all[h := answer.value];
    }
    r := Success(all);
  }

  // ---------------------------------------------------------------------------
  // The sort
  // ---------------------------------------------------------------------------

  /** One header into an ascending list that does not hold its height. */
  function InsertByHeight(phs: seq<PoPowHeader>, ph: PoPowHeader): (r: seq<PoPowHeader>)
    requires Ascending(phs)
    requires forall q | q in phs :: q.header.height != ph.header.height
    ensures Ascending(r)
    ensures forall q :: q in r <==> q == ph || q in phs
  {
    if phs == [] then [ph]
    else if ph.header.height < phs[0].header.height then
      assert forall q | q in phs :: q == phs[0] || phs[0].header.height < q.header.height;
      [ph] + phs
    else
      var rest := InsertByHeight(phs[1..], ph);
      assert forall q | q in phs :: q == phs[0] || q in phs[1..];
      assert forall q | q in phs[1..] :: phs[0].header.height < q.header.height;
      [phs[0]] + rest
  }

  /** The collected headers by ascending height. */
  method SortedByHeight(collected: map<int, PoPowHeader>) returns (phs: seq<PoPowHeader>)
    requires forall h | h in collected :: collected[h].header.height == h
    ensures Ascending(phs)
    ensures ListsOutside(collected, {}, phs)
  {
    phs := [];
    var rest := collected.Keys;
    while rest != {}
      invariant rest <= collected.Keys
      invariant Ascending(phs)
      invariant ListsOutside(collected, rest, phs)
      decreases rest
    {
      Inhabited(rest);
      var h :| h in rest;
      OneMoreListed(collected, rest, phs, h);
      phs := InsertByHeight(phs, collected[h]);
      rest := rest - {h};
    }
  }

  lemma Inhabited(s: set<int>)
    ensures s == {} || exists h :: h in s
  {
    if forall h :: h !in s {
      assert s == {};
    }
  }

  /** `phs` lists exactly the headers under the keys outside `rest`. */
  ghost predicate ListsOutside(collected: map<int, PoPowHeader>, rest: set<int>, phs: seq<PoPowHeader>) {
    && (forall ph | ph in phs :: exists h :: h in collected && h !in rest && collected[h] == ph)
    && (forall h | h in collected && h !in rest :: collected[h] in phs)
  }

  lemma OneMoreListed(collected: map<int, PoPowHeader>, rest: set<int>, phs: seq<PoPowHeader>, h: int)
    requires forall g | g in collected :: collected[g].header.height == g
    requires h in rest && rest <= collected.Keys
    requires Ascending(phs) && ListsOutside(collected, rest, phs)
    ensures forall q | q in phs :: q.header.height != collected[h].header.height
    ensures ListsOutside(collected, rest - {h}, InsertByHeight(phs, collected[h]))
  {
    forall q | q in phs
      ensures q.header.height != collected[h].header.height
    {
      var g :| g in collected && g !in rest && collected[g] == q;
    }
    var r := InsertByHeight(phs, collected[h]);
    forall ph | ph in r
      ensures exists g :: g in collected && g !in rest - {h} && collected[g] == ph
    {
      if ph in phs {
        var g :| g in collected && g !in rest && collected[g] == ph;
        assert g !in rest - {h};
      } else {
        assert h !in rest - {h};
      }
    }
  }

  // ---------------------------------------------------------------------------
  // The prover
  // ---------------------------------------------------------------------------

  lemma SuffixIsTheChains(reader: Reader, rules: Rules, chain: seq<PoPowHeader>, k: nat)
    requires ValidChain(rules, chain) && Sound(reader, rules, chain)
    requires 1 <= k < |chain|
    requires |(reader.lastHeaders)(k)| >= k
    ensures var head := |chain| - k;
      var hs := (reader.lastHeaders)(k);
      var hash := (rules.digest)(chain[head].header);
      && hs != []
      && BlockHash(rules, hs[0]) == Some(hash)
      && hs[1..] == HeadersOf(chain[head + 1..])
      && ((reader.popowHeaderByHash)(hash).Some? ==> (reader.popowHeaderByHash)(hash).value == chain[head])
      && ((reader.popowHeaderByHash)(hash).None? ==> !Complete(reader, rules, chain))
  {
    var head := |chain| - k;
    var hs := (reader.lastHeaders)(k);
    assert hs == HeadersOf(chain[head..]);
    assert hs[0] == chain[head].header;
    assert chain[head..][1..] == chain[head + 1..];
    assert hs[1..] == HeadersOf(chain[head + 1..]);
  }

  lemma AllListed(chain: seq<PoPowHeader>, collected: map<int, PoPowHeader>, kept: set<int>, phs: seq<PoPowHeader>)
    requires Holds(chain, collected, kept)
    requires ListsOutside(collected, {}, phs)
    ensures ListsPositions(chain, kept, phs)
  {
    forall ph | ph in phs
      ensures exists x :: x in kept && 0 <= x < |chain| && chain[x] == ph
    {
      var h :| h in collected && h !in {} && collected[h] == ph;
      assert h - 1 in kept && chain[h - 1] == ph;
    }
    forall x | x in kept
      ensures 0 <= x < |chain| && chain[x] in phs
    {
      assert x + 1 in collected && x + 1 !in {} && collected[x + 1] == chain[x];
    }
  }

  lemma HeightsAreKeys(chain: seq<PoPowHeader>, collected: map<int, PoPowHeader>, kept: set<int>)
    requires forall x | 0 <= x < |chain| :: chain[x].header.height == x + 1
    requires Holds(chain, collected, kept)
    ensures forall h | h in collected :: collected[h].header.height == h
  {
  }

  lemma HoldsBlockOne(chain: seq<PoPowHeader>, kept: set<int>, swept: map<int, PoPowHeader>, ph: PoPowHeader)
    requires |chain| > 0 && ph == chain[0]
    requires Holds(chain, swept, kept)
    ensures Holds(chain, swept[1 := ph], kept + {0})
  {
  }

  lemma BlockOneIs(reader: Reader, rules: Rules, chain: seq<PoPowHeader>)
    requires Sound(reader, rules, chain) && |chain| > 0
    ensures (reader.popowHeaderAtHeight)(1).Some? ==> (reader.popowHeaderAtHeight)(1).value == chain[0]
    ensures (reader.popowHeaderAtHeight)(1).None? ==> !Complete(reader, rules, chain)
  {
  }

  /** Everything the proof's prefix is drawn from, under its heights. */
  method Collect(reader: Reader, m: nat, suffixHead: PoPowHeader,
                 ghost rules: Rules, ghost chain: seq<PoPowHeader>, ghost head: nat)
    returns (r: Result<map<int, PoPowHeader>, ProofBuildError>)
    requires ValidChain(rules, chain) && Sound(reader, rules, chain)
    requires 1 <= head < |chain| && suffixHead == chain[head] && 1 <= m
    ensures r.Failure? ==> r.error.MissingPopowHeader? && !Complete(reader, rules, chain)
    ensures |suffixHead.interlinks| >= 1
    ensures r.Success? ==> Holds(chain, r.value, KeptPositions(rules, chain, head, m, |suffixHead.interlinks| - 1))
  {
    HeadHasSlots(rules, chain, head);
    ghost var w := WalkAbove(rules, chain, head, m, |suffixHead.interlinks| - 1, 0);
    var walked := WalkLevels(reader, suffixHead, m, rules, chain, head);
    if walked.Failure? {
      return Failure(walked.error);
    }
    var swept := Sweep(reader, walked.value.0, walked.value.1, suffixHead.header.height, rules, chain, w.kept);
    if swept.Failure? {
      return Failure(swept.error);
    }
    BlockOneIs(reader, rules, chain);
    var genesis := (reader.popowHeaderAtHeight)(1);
    if genesis.None? {
      return Failure(MissingPopowHeader);
    }
    HoldsBlockOne(chain, w.kept + Span(w.anchor, head), swept.value, genesis.value);
    r := Success(swept.value[1 := genesis.value]);
  }

  /** The prefix below a suffix head, ascending. */
  method BuildPrefix(collected: map<int, PoPowHeader>, ghost chain: seq<PoPowHeader>, ghost kept: set<int>)
    returns (prefix: seq<PoPowHeader>)
    requires forall x | 0 <= x < |chain| :: chain[x].header.height == x + 1
    requires Holds(chain, collected, kept)
    ensures Ascending(prefix)
    ensures ListsPositions(chain, kept, prefix)
  {
    HeightsAreKeys(chain, collected, kept);
    prefix := SortedByHeight(collected);
    AllListed(chain, collected, kept, prefix);
  }

  /** The proof over a suffix the reader has answered. */
  method ProveBelow(reader: Reader, m: nat, k: nat, suffixHead: PoPowHeader, suffixTail: seq<Header>,
                    ghost rules: Rules, ghost chain: seq<PoPowHeader>)
    returns (r: Result<NipopowProof, ProofBuildError>)
    requires ValidChain(rules, chain) && Sound(reader, rules, chain)
    requires 1 <= m && 1 <= k && m + k <= |chain|
    requires suffixHead == chain[|chain| - k] && suffixTail == HeadersOf(chain[|chain| - k + 1..])
    ensures r.Failure? ==> r.error.MissingPopowHeader? && !Complete(reader, rules, chain)
    ensures r.Success? ==> IsProofOf(rules, chain, m, k, r.value)
  {
    ghost var head: nat := |chain| - k;
    var collected := Collect(reader, m, suffixHead, rules, chain, head);
    if collected.Failure? {
      return Failure(collected.error);
    }
    HeadHasSlots(rules, chain, head);
    var prefix := BuildPrefix(collected.value, chain, KeptPositions(rules, chain, head, m,
        |suffixHead.interlinks| - 1));
    r := Success(NipopowProof(m, k, prefix, suffixHead, suffixTail));
  }

  predicate ParamsFit(m: int, k: int, length: nat) {
    1 <= m <= MAX_NIPOPOW_PARAM && 1 <= k <= MAX_NIPOPOW_PARAM && m + k <= length
  }

  /**
   * Over a sound reader of a valid chain a proof is the chain's own, exactly; a
   * gap the walk meets is an error and never a partial proof.
   */
  method ProveWithReader(reader: Reader, m: int, k: int, rules: Rules, ghost chain: seq<PoPowHeader>)
    returns (r: Result<NipopowProof, ProofBuildError>)
    requires ValidChain(rules, chain) && Sound(reader, rules, chain)
    ensures r == Failure(InvalidM) <==> !(1 <= m <= MAX_NIPOPOW_PARAM)
    ensures r == Failure(InvalidK) <==> 1 <= m <= MAX_NIPOPOW_PARAM && !(1 <= k <= MAX_NIPOPOW_PARAM)
    ensures r == Failure(ChainTooShort) <==>
      1 <= m <= MAX_NIPOPOW_PARAM && 1 <= k <= MAX_NIPOPOW_PARAM && |chain| < m + k
    ensures r == Failure(MissingPopowHeader) ==> !Complete(reader, rules, chain)
    ensures ParamsFit(m, k, |chain|) && Complete(reader, rules, chain) ==> r.Success?
    ensures r.Success? ==> IsProofOf(rules, chain, m, k, r.value)
  {
    if !(1 <= m <= MAX_NIPOPOW_PARAM) {
      return Failure(InvalidM);
    }
    if !(1 <= k <= MAX_NIPOPOW_PARAM) {
      return Failure(InvalidK);
    }
    if reader.chainHeight < m + k {
      return Failure(ChainTooShort);
    }
    var suffixHeaders := (reader.lastHeaders)(k);
    if |suffixHeaders| < k {
      return Failure(MissingPopowHeader);
    }
    SuffixIsTheChains(reader, rules, chain, k);
    var answer := match BlockHash(rules, suffixHeaders[0])
      case None => None
      case Some(hash) => (reader.popowHeaderByHash)(hash);
    if answer.None? {
      return Failure(MissingPopowHeader);
    }
    r := ProveBelow(reader, m, k, answer.value, suffixHeaders[1..], rules, chain);
  }
}
