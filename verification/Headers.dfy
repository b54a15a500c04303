/**
 * Block headers, their superblock levels and the interlink vector each of them
 * commits to. Hashing, proof of work and the difficulty schedule are oracles:
 * fields of `Rules`, of which nothing is assumed but what `ValidChain` states.
 */
module Headers {
  import opened Wrappers

  type Hash = string

  const LEVEL_CAP: nat := 256
  const MAX_INTERLINKS: nat := 257

  /** `rest` stands for the header fields no rule here reads. */
  datatype Header = Header(
    height: int,
    prevBlockHash: Hash,
    interlinkRoot: Hash,
    powTargetBits: int,
    createdAt: int,
    protocolVersion: int,
    rest: seq<int>)

  datatype PoPowHeader = PoPowHeader(header: Header, interlinks: seq<Hash>)

  /** The validation package's rules and the network profile they are held to. */
  datatype Rules = Rules(
    inDomain: Header -> bool,
    digest: Header -> Hash,
    powMet: Header -> bool,
    hitLevel: Header -> Option<nat>,
    eraAt: int -> Option<int>,
    scheduledBits: (int, int, int) -> int,
    rootOf: seq<Hash> -> Hash,
    isHex64: Hash -> bool,
    floorBits: int,
    ceilingBits: int,
    anchorBits: int,
    nowMs: int,
    maxFutureDriftMs: int,
    genesisId: Hash)

  /** None on exactly the headers outside their field domains. */
  function BlockHash(rules: Rules, h: Header): Option<Hash> {
    if rules.inDomain(h) then Some((rules.digest)(h)) else None
  }

  /** A header's superblock level against the anchor target. */
  datatype Level = Unbounded | Unregistered | At(mu: nat)

  function LevelOf(rules: Rules, h: Header): Level {
    if h.height == 1 then Unbounded
    else match (rules.hitLevel)(h)
      case None => Unregistered
      case Some(mu) => At(mu)
  }

  predicate Reaches(rules: Rules, h: Header, mu: nat) {
    match LevelOf(rules, h)
    case Unbounded => true
    case Unregistered => false
    case At(reached) => mu <= reached
  }

  /** The vector of a header's child. An empty vector has a child's rule only under a level without bound. */
  function UpdateInterlinks(prev: seq<Hash>, prevHash: Hash, level: Level): (next: seq<Hash>)
    requires level.Unbounded? || prev != []
  {
    match level
    case Unbounded => [prevHash]
    case Unregistered => prev
    case At(mu) =>
      seq(if mu < |prev| then |prev| else mu + 1, i requires 0 <= i =>
        if 1 <= i <= mu || |prev| <= i then prevHash else prev[i])
  }

  // ---------------------------------------------------------------------------
  // A valid chain
  // ---------------------------------------------------------------------------

  /** `chain[x]` is the header at height `x + 1`. */
  ghost predicate ValidHeaders(rules: Rules, chain: seq<PoPowHeader>)
  {
    && |chain| > 0
    && (forall x | 0 <= x < |chain| ::
          var h := chain[x].header;
          && h.height == x + 1
          && rules.inDomain(h)
          && (rules.eraAt)(h.height) == Some(h.protocolVersion)
          && rules.floorBits <= h.powTargetBits <= rules.ceilingBits
          && rules.powMet(h)
          && rules.isHex64((rules.digest)(h))
          && h.interlinkRoot == (rules.rootOf)(chain[x].interlinks)
          && (match (rules.hitLevel)(h) case None => true case Some(mu) => mu <= LEVEL_CAP))
    && chain[0].header.powTargetBits == rules.anchorBits
    && (rules.genesisId == "" || (rules.digest)(chain[0].header) == rules.genesisId)
    && chain[|chain| - 1].header.createdAt <= rules.nowMs + rules.maxFutureDriftMs
  }

  ghost predicate Linked(rules: Rules, chain: seq<PoPowHeader>)
    requires |chain| > 0
  {
    && chain[0].interlinks == []
    && forall x | 1 <= x < |chain| ::
         var parent := chain[x - 1];
         && chain[x].header.prevBlockHash == (rules.digest)(parent.header)
         && chain[x].header.createdAt > parent.header.createdAt
         && chain[x].header.powTargetBits ==
              (rules.scheduledBits)(chain[0].header.createdAt, parent.header.height, parent.header.createdAt)
         && (LevelOf(rules, parent.header).Unbounded? || parent.interlinks != [])
         && chain[x].interlinks ==
              UpdateInterlinks(parent.interlinks, (rules.digest)(parent.header), LevelOf(rules, parent.header))
  }

  /** No two headers of the chain share a digest. */
  ghost predicate DistinctDigests(rules: Rules, chain: seq<PoPowHeader>) {
    forall x, y | 0 <= x < |chain| && 0 <= y < |chain| &&
      (rules.digest)(chain[x].header) == (rules.digest)(chain[y].header) :: x == y
  }

  ghost predicate ValidChain(rules: Rules, chain: seq<PoPowHeader>) {
    ValidHeaders(rules, chain) && Linked(rules, chain) && DistinctDigests(rules, chain)
  }

  // ---------------------------------------------------------------------------
  // What the vector names
  // ---------------------------------------------------------------------------

  /** The latest header before `x`, block 1 apart, that reaches `mu`; 0 where there is none. */
  ghost function Latest(rules: Rules, chain: seq<PoPowHeader>, x: nat, mu: nat): (y: nat)
    requires x <= |chain|
    ensures y == 0 || (1 <= y < x && Reaches(rules, chain[y].header, mu))
    ensures forall z | 1 <= z < x && y < z :: !Reaches(rules, chain[z].header, mu)
  {
    if x <= 1 then 0
    else if Reaches(rules, chain[x - 1].header, mu) then x - 1
    else Latest(rules, chain, x - 1, mu)
  }

  /**
   * Slot 0 is block 1; every other slot is the latest earlier header of its level, and stands exactly where one
   * exists.
   */
  ghost predicate NamesLatest(rules: Rules, chain: seq<PoPowHeader>, x: nat)
    requires 1 <= x < |chain|
  {
    var links := chain[x].interlinks;
    && 1 <= |links| <= MAX_INTERLINKS
    && links[0] == (rules.digest)(chain[0].header)
    && (forall mu: nat | 1 <= mu < |links| ::
          Latest(rules, chain, x, mu) >= 1 && links[mu] == (rules.digest)(chain[Latest(rules, chain, x, mu)].header))
    && (forall mu: nat | |links| <= mu :: Latest(rules, chain, x, mu) == 0)
  }

  lemma {:induction false} InterlinksNameLatest(rules: Rules, chain: seq<PoPowHeader>, x: nat)
    requires ValidHeaders(rules, chain) && Linked(rules, chain)
    requires 1 <= x < |chain|
    ensures NamesLatest(rules, chain, x)
  {
    var parent := chain[x - 1];
    assert parent.header.height == x;
    var level := LevelOf(rules, parent.header);
    var links := chain[x].interlinks;
    if x == 1 {
      assert level.Unbounded?;
      assert links == [(rules.digest)(chain[0].header)];
    } else {
      InterlinksNameLatest(rules, chain, x - 1);
      assert !level.Unbounded?;
      forall mu: nat | 1 <= mu
        ensures mu < |links| ==>
          Latest(rules, chain, x, mu) >= 1 && links[mu] == (rules.digest)(chain[Latest(rules, chain, x, mu)].header)
        ensures |links| <= mu ==> Latest(rules, chain, x, mu) == 0
      {
        if level.At? && mu <= level.mu {
          assert Reaches(rules, parent.header, mu);
          assert links[mu] == (rules.digest)(parent.header);
        } else {
          assert !Reaches(rules, parent.header, mu);
          assert Latest(rules, chain, x, mu) == Latest(rules, chain, x - 1, mu);
        }
      }
    }
  }
}
