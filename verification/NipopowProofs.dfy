/** The proof object, and the rules a verifier holds it to. */
module NipopowProofs {
  import opened Wrappers
  import opened Headers

  const MAX_NIPOPOW_PARAM: int := 128

  datatype Params = Params(m: int, k: int)

  datatype NipopowProof = NipopowProof(
    m: int,
    k: int,
    prefix: seq<PoPowHeader>,
    suffixHead: PoPowHeader,
    suffixTail: seq<Header>)

  /** The elements that carry a vector. */
  function Vectored(p: NipopowProof): (all: seq<PoPowHeader>) {
    p.prefix + [p.suffixHead]
  }

  function HeadersOf(phs: seq<PoPowHeader>): (hs: seq<Header>) {
    seq(|phs|, i requires 0 <= i < |phs| => phs[i].header)
  }

  function Flattened(p: NipopowProof): (hs: seq<Header>) {
    HeadersOf(Vectored(p)) + p.suffixTail
  }

  /** Whether `cur` names `prev` as its parent. */
  predicate ParentIs(rules: Rules, cur: Header, prev: Header) {
    BlockHash(rules, prev) == Some(cur.prevBlockHash)
  }

  // ---------------------------------------------------------------------------
  // The rules, in the order the verifier applies them
  // ---------------------------------------------------------------------------

  predicate ShapeOk(p: NipopowProof, params: Params) {
    && 1 <= params.m == p.m
    && 1 <= params.k == p.k
    && p.prefix != []
    && |p.suffixTail| == p.k - 1
  }

  predicate AnchorOk(rules: Rules, p: NipopowProof)
    requires p.prefix != []
  {
    var first := p.prefix[0];
    && first.header.height == 1
    && first.interlinks == []
    && (rules.genesisId != "" ==> BlockHash(rules, first.header) == Some(rules.genesisId))
    && forall i | 1 <= i < |Vectored(p)| ::
         var links := Vectored(p)[i].interlinks;
         links != [] && BlockHash(rules, first.header) == Some(links[0])
  }

  predicate HeaderOk(rules: Rules, h: Header) {
    && rules.inDomain(h)
    && (rules.eraAt)(h.height) == Some(h.protocolVersion)
    && rules.floorBits <= h.powTargetBits <= rules.ceilingBits
    && rules.powMet(h)
  }

  predicate ScheduledOk(rules: Rules, hs: seq<Header>)
    requires hs != []
  {
    && hs[0].powTargetBits == rules.anchorBits
    && forall i | 1 <= i < |hs| && ParentIs(rules, hs[i], hs[i - 1]) ::
         hs[i].powTargetBits == (rules.scheduledBits)(hs[0].createdAt, hs[i - 1].height, hs[i - 1].createdAt)
  }

  predicate TimesOk(hs: seq<Header>) {
    forall i | 1 <= i < |hs| :: hs[i - 1].createdAt < hs[i].createdAt
  }

  predicate ClockOk(rules: Rules, hs: seq<Header>)
    requires hs != []
  {
    hs[|hs| - 1].createdAt <= rules.nowMs + rules.maxFutureDriftMs
  }

  predicate VectorOk(rules: Rules, ph: PoPowHeader) {
    && |ph.interlinks| <= MAX_INTERLINKS
    && (forall i | 0 <= i < |ph.interlinks| :: rules.isHex64(ph.interlinks[i]))
    && (rules.rootOf)(ph.interlinks) == ph.header.interlinkRoot
  }

  predicate HeightsOk(rules: Rules, hs: seq<Header>) {
    forall i | 1 <= i < |hs| ::
      && hs[i - 1].height < hs[i].height
      && (ParentIs(rules, hs[i], hs[i - 1]) ==> hs[i].height == hs[i - 1].height + 1)
  }

  /** Strict adjacency: `cur`'s vector names `prev`, or `prev` is `cur`'s parent. */
  predicate Connected(rules: Rules, cur: PoPowHeader, prev: Header) {
    match BlockHash(rules, prev)
    case None => false
    case Some(hash) => hash in cur.interlinks || cur.header.prevBlockHash == hash
  }

  predicate PrefixConnected(rules: Rules, all: seq<PoPowHeader>) {
    forall i | 1 <= i < |all| :: Connected(rules, all[i], all[i - 1].header)
  }

  predicate TailLinkedAt(rules: Rules, head: Header, tail: seq<Header>, i: nat)
    requires i < |tail|
  {
    && ParentIs(rules, tail[i], if i == 0 then head else tail[i - 1])
    && BlockHash(rules, tail[i]).Some?
  }

  /** The tail hangs from the suffix head, parent by parent, every hash defined. */
  predicate TailLinked(rules: Rules, head: Header, tail: seq<Header>) {
    && BlockHash(rules, head).Some?
    && forall i | 0 <= i < |tail| :: TailLinkedAt(rules, head, tail, i)
  }

  predicate Accepts(rules: Rules, p: NipopowProof, params: Params) {
    var hs := Flattened(p);
    && ShapeOk(p, params)
    && AnchorOk(rules, p)
    && (forall i | 0 <= i < |hs| :: HeaderOk(rules, hs[i]))
    && ScheduledOk(rules, hs)
    && TimesOk(hs)
    && ClockOk(rules, hs)
    && (forall i | 0 <= i < |Vectored(p)| :: VectorOk(rules, Vectored(p)[i]))
    && HeightsOk(rules, hs)
    && PrefixConnected(rules, Vectored(p))
    && TailLinked(rules, p.suffixHead.header, p.suffixTail)
  }
}
