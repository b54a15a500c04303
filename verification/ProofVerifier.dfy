/**
 * The verifier: indexed passes with early exit, one rule a pass. Each pass
 * answers the index of the first element it refuses.
 */
module ProofVerifier {
  import opened Wrappers
  import opened Headers
  import opened NipopowProofs

  datatype VerifyCode =
    | Shape | Anchor | Domain | Version | Target | Pow | Time | Clock | Interlinks | Heights | Connections

  datatype VerifyResult =
    | Accepted(headers: seq<Header>, tip: Header, tipHeight: int, suffixHead: PoPowHeader)
    | Refused(reason: VerifyCode, index: int)

  datatype Verdict = Pass | Refuse(reason: VerifyCode, index: int)

  method CheckAnchor(rules: Rules, p: NipopowProof) returns (v: Verdict)
    requires p.prefix != []
    ensures v.Pass? <==> AnchorOk(rules, p) && rules.inDomain(p.prefix[0].header)
    ensures v.Refuse? ==>
      (v.reason.Anchor? && !AnchorOk(rules, p)) || (v == Refuse(Domain, 0) && !rules.inDomain(p.prefix[0].header))
  {
    var all := Vectored(p);
    var first := p.prefix[0];
    if first.header.height != 1 || first.interlinks != [] {
      return Refuse(Anchor, 0);
    }
    var genesis := BlockHash(rules, first.header);
    if genesis.None? {
      return Refuse(Domain, 0);
    }
    if rules.genesisId != "" && genesis.value != rules.genesisId {
      return Refuse(Anchor, 0);
    }
    for i := 1 to |all|
      invariant forall j | 1 <= j < i :: all[j].interlinks != [] && all[j].interlinks[0] == genesis.value
    {
      if all[i].interlinks == [] || all[i].interlinks[0] != genesis.value {
        return Refuse(Anchor, i);
      }
    }
    v := Pass;
  }

  ghost predicate HeaderRefused(rules: Rules, h: Header, reason: VerifyCode) {
    match reason
    case Domain => !rules.inDomain(h)
    case Version => (rules.eraAt)(h.height) != Some(h.protocolVersion)
    case Target => !(rules.floorBits <= h.powTargetBits <= rules.ceilingBits)
    case Pow => !rules.powMet(h)
    case _ => false
  }

  method CheckHeaders(rules: Rules, hs: seq<Header>) returns (v: Verdict)
    ensures v.Pass? <==> forall i | 0 <= i < |hs| :: HeaderOk(rules, hs[i])
    ensures v.Refuse? ==> 0 <= v.index < |hs| && HeaderRefused(rules, hs[v.index], v.reason)
  {
    for i := 0 to |hs|
      invariant forall j | 0 <= j < i :: HeaderOk(rules, hs[j])
    {
      if !rules.inDomain(hs[i]) {
        return Refuse(Domain, i);
      }
      if (rules.eraAt)(hs[i].height) != Some(hs[i].protocolVersion) {
        return Refuse(Version, i);
      }
      if hs[i].powTargetBits < rules.floorBits || hs[i].powTargetBits > rules.ceilingBits {
        return Refuse(Target, i);
      }
      if !rules.powMet(hs[i]) {
        return Refuse(Pow, i);
      }
    }
    v := Pass;
  }

  method CheckSchedule(rules: Rules, hs: seq<Header>) returns (v: Verdict)
    requires hs != []
    ensures v.Pass? <==> ScheduledOk(rules, hs)
    ensures v.Refuse? ==> v.reason.Target? && 0 <= v.index < |hs|
  {
    if hs[0].powTargetBits != rules.anchorBits {
      return Refuse(Target, 0);
    }
    for i := 1 to |hs|
      invariant forall j | 1 <= j < i && ParentIs(rules, hs[j], hs[j - 1]) ::
        hs[j].powTargetBits == (rules.scheduledBits)(hs[0].createdAt, hs[j - 1].height, hs[j - 1].createdAt)
    {
      var prevHash := BlockHash(rules, hs[i - 1]);
      if prevHash.Some? && hs[i].prevBlockHash == prevHash.value {
        var scheduled := (rules.scheduledBits)(hs[0].createdAt, hs[i - 1].height, hs[i - 1].createdAt);
        if hs[i].powTargetBits != scheduled {
          return Refuse(Target, i);
        }
      }
    }
    v := Pass;
  }

  method CheckTimes(hs: seq<Header>) returns (v: Verdict)
    requires hs != []
    ensures v.Pass? <==> TimesOk(hs)
    ensures v.Refuse? ==> v.reason.Time? && 1 <= v.index < |hs| && hs[v.index].createdAt <= hs[v.index - 1].createdAt
  {
    for i := 1 to |hs|
      invariant forall j | 1 <= j < i :: hs[j - 1].createdAt < hs[j].createdAt
    {
      if hs[i].createdAt <= hs[i - 1].createdAt {
        return Refuse(Time, i);
      }
    }
    v := Pass;
  }

  method CheckVectors(rules: Rules, all: seq<PoPowHeader>) returns (v: Verdict)
    ensures v.Pass? <==> forall i | 0 <= i < |all| :: VectorOk(rules, all[i])
    ensures v.Refuse? ==> v.reason.Interlinks? && 0 <= v.index < |all| && !VectorOk(rules, all[v.index])
  {
    for i := 0 to |all|
      invariant forall j | 0 <= j < i :: VectorOk(rules, all[j])
    {
      var links := all[i].interlinks;
      if |links| > MAX_INTERLINKS {
        return Refuse(Interlinks, i);
      }
      for j := 0 to |links|
        invariant forall l | 0 <= l < j :: rules.isHex64(links[l])
      {
        if !rules.isHex64(links[j]) {
          return Refuse(Interlinks, i);
        }
      }
      if (rules.rootOf)(links) != all[i].header.interlinkRoot {
        return Refuse(Interlinks, i);
      }
    }
    v := Pass;
  }

  method CheckHeights(rules: Rules, hs: seq<Header>) returns (v: Verdict)
    requires hs != []
    ensures v.Pass? <==> HeightsOk(rules, hs)
    ensures v.Refuse? ==> v.reason.Heights? && 1 <= v.index < |hs|
  {
    for i := 1 to |hs|
      invariant forall j | 1 <= j < i ::
        hs[j - 1].height < hs[j].height && (ParentIs(rules, hs[j], hs[j - 1]) ==> hs[j].height == hs[j - 1].height + 1)
    {
      if hs[i].height <= hs[i - 1].height {
        return Refuse(Heights, i);
      }
      var prevHash := BlockHash(rules, hs[i - 1]);
      if prevHash.Some? && hs[i].prevBlockHash == prevHash.value {
        if hs[i].height != hs[i - 1].height + 1 {
          return Refuse(Heights, i);
        }
      }
    }
    v := Pass;
  }

  method CheckConnections(rules: Rules, all: seq<PoPowHeader>) returns (v: Verdict)
    requires all != []
    ensures v.Pass? <==> PrefixConnected(rules, all)
    ensures v.Refuse? ==> v.reason.Connections? && 1 <= v.index < |all|
    ensures v.Refuse? ==>
      && !Connected(rules, all[v.index], all[v.index - 1].header)
      && forall j | 1 <= j < v.index :: Connected(rules, all[j], all[j - 1].header)
  {
    for i := 1 to |all|
      invariant forall j | 1 <= j < i :: Connected(rules, all[j], all[j - 1].header)
    {
      var prevHash := BlockHash(rules, all[i - 1].header);
      if prevHash.None? {
        assert !Connected(rules, all[i], all[i - 1].header);
        return Refuse(Connections, i);
      }
      var inInterlinks := prevHash.value in all[i].interlinks;
      var isPrevBlock := all[i].header.prevBlockHash == prevHash.value;
      if !inInterlinks && !isPrevBlock {
        return Refuse(Connections, i);
      }
    }
    v := Pass;
  }

  /** `start` is the suffix head's index in the flattened sequence. */
  method CheckTail(rules: Rules, head: Header, tail: seq<Header>, start: nat) returns (v: Verdict)
    ensures v.Pass? <==> TailLinked(rules, head, tail)
    ensures v.Refuse? ==> v.reason.Connections? && start <= v.index <= start + |tail|
  {
    var prevTailHash := BlockHash(rules, head);
    if prevTailHash.None? {
      return Refuse(Connections, start);
    }
    for i := 0 to |tail|
      invariant prevTailHash.Some?
      invariant prevTailHash == BlockHash(rules, if i == 0 then head else tail[i - 1])
      invariant forall j | 0 <= j < i :: TailLinkedAt(rules, head, tail, j)
    {
      if tail[i].prevBlockHash != prevTailHash.value {
        assert !TailLinkedAt(rules, head, tail, i);
        return Refuse(Connections, start + 1 + i);
      }
      prevTailHash := BlockHash(rules, tail[i]);
      if prevTailHash.None? {
        assert !TailLinkedAt(rules, head, tail, i);
        return Refuse(Connections, start + 1 + i);
      }
    }
    v := Pass;
  }

  /** Whether `reason` at `index` names a rule the proof breaks. */
  ghost predicate Breaks(rules: Rules, p: NipopowProof, params: Params, reason: VerifyCode, index: int) {
    var hs := Flattened(p);
    var all := Vectored(p);
    if reason.Shape? then !ShapeOk(p, params)
    else if !ShapeOk(p, params) then false
    else match reason
      case Anchor => !AnchorOk(rules, p)
      case Domain | Version | Pow => 0 <= index < |hs| && HeaderRefused(rules, hs[index], reason)
      case Target => 0 <= index < |hs| && (HeaderRefused(rules, hs[index], reason) || !ScheduledOk(rules, hs))
      case Time => 1 <= index < |hs| && hs[index].createdAt <= hs[index - 1].createdAt
      case Clock => !ClockOk(rules, hs)
      case Interlinks => 0 <= index < |all| && !VectorOk(rules, all[index])
      case Heights => !HeightsOk(rules, hs)
      case Connections => !PrefixConnected(rules, all) || !TailLinked(rules, p.suffixHead.header, p.suffixTail)
  }

  /** Accepts exactly the proofs that pass every rule; a refusal names a rule the proof breaks. */
  method VerifyProof(rules: Rules, p: NipopowProof, params: Params) returns (r: VerifyResult)
    ensures r.Accepted? <==> Accepts(rules, p, params)
    ensures r.Refused? ==> Breaks(rules, p, params, r.reason, r.index)
    ensures r.Accepted? ==>
      && r.headers == Flattened(p)
      && r.tip == r.headers[|r.headers| - 1]
      && r.tipHeight == r.tip.height
      && r.suffixHead == p.suffixHead
  {
    if params.m < 1 || params.k < 1 || p.m != params.m || p.k != params.k || p.prefix == []
        || |p.suffixTail| != p.k - 1 {
      return Refused(Shape, -1);
    }
    var all := Vectored(p);
    var hs := Flattened(p);
    assert hs[0] == p.prefix[0].header;

    var v := CheckAnchor(rules, p);
    if v.Refuse? { return Refused(v.reason, v.index); }
    v := CheckHeaders(rules, hs);
    if v.Refuse? { return Refused(v.reason, v.index); }
    v := CheckSchedule(rules, hs);
    if v.Refuse? { return Refused(v.reason, v.index); }
    v := CheckTimes(hs);
    if v.Refuse? { return Refused(v.reason, v.index); }
    var tip := hs[|hs| - 1];
    if tip.createdAt > rules.nowMs + rules.maxFutureDriftMs {
      return Refused(Clock, |hs| - 1);
    }
    v := CheckVectors(rules, all);
    if v.Refuse? { return Refused(v.reason, v.index); }
    v := CheckHeights(rules, hs);
    if v.Refuse? { return Refused(v.reason, v.index); }
    v := CheckConnections(rules, all);
    if v.Refuse? { return Refused(v.reason, v.index); }
    v := CheckTail(rules, p.suffixHead.header, p.suffixTail, |p.prefix|);
    if v.Refuse? { return Refused(v.reason, v.index); }
    r := Accepted(hs, tip, tip.height, p.suffixHead);
  }
}
