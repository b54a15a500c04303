/**
 * The canonical-proof comparison: the proof a prover writes for one cycle,
 * regenerated and compared byte by byte with the proof given.
 */
module CanonicalProof {
  import opened Wrappers

  type Byte = b: int | 0 <= b < 256
  type Bytes = seq<Byte>

  const PACKED_LEAF: Byte := 0x02
  const PACKED_LABEL: Byte := 0x03
  const PACKED_END_OF_TREE: Byte := 0x04

  /** A node of the cycle's old tree. `ref` is its identity: what the visited set holds. */
  datatype AvlNode =
    | Leaf(ref: nat, key: Bytes, nextLeafKey: Bytes, value: Bytes)
    | Internal(ref: nat, balance: int, left: AvlNode, right: AvlNode)
    | Stub(ref: nat)

  /** The replay a proof is judged against; `labelOf` is the node digest, an oracle. */
  datatype Cycle = Cycle(
    oldRoot: AvlNode,
    visited: set<nat>,
    valueLengthOpt: Option<nat>,
    labelOf: AvlNode -> Bytes)

  /** A length as four big-endian bytes. */
  function BigEndian32(n: nat): Bytes {
    [(n / 0x100_0000) % 0x100, (n / 0x1_0000) % 0x100, (n / 0x100) % 0x100, n % 0x100]
  }

  // ---------------------------------------------------------------------------
  // The recursive serialiser
  // ---------------------------------------------------------------------------

  /** What a post-order walk writes, whether its last token was a leaf, and whether it met a visited stub. */
  datatype Emission = Emission(bytes: Bytes, afterLeaf: bool, stuck: bool)

  function Concat(parts: seq<Bytes>): Bytes {
    if parts == [] then [] else parts[0] + Concat(parts[1..])
  }

  /** A leaf omits its key right after another leaf, which names it as its next. */
  function LeafParts(c: Cycle, leaf: AvlNode, afterLeaf: bool): seq<Bytes>
    requires leaf.Leaf?
  {
    [[PACKED_LEAF]]
    + (if afterLeaf then [] else [leaf.key])
    + [leaf.nextLeafKey]
    + (if c.valueLengthOpt.None? then [BigEndian32(|leaf.value|)] else [])
    + [leaf.value]
  }

  /** `next` written after `first`, where `first` met no stub. */
  function Then(first: Emission, next: Emission): Emission {
    if first.stuck then first else Emission(first.bytes + next.bytes, next.afterLeaf, next.stuck)
  }

  function Serialise(c: Cycle, node: AvlNode, afterLeaf: bool): Emission {
    if node.ref !in c.visited then Emission([PACKED_LABEL] + (c.labelOf)(node), false, false)
    else match node
      case Leaf(_, _, _, _) => Emission(Concat(LeafParts(c, node, afterLeaf)), true, false)
      case Internal(_, balance, left, right) =>
        var l := Serialise(c, left, afterLeaf);
        var r := Serialise(c, right, l.afterLeaf);
        Then(Then(l, r), Emission([balance % 256], r.afterLeaf, false))
      case Stub(_) => Emission([], afterLeaf, true)
  }

  // ---------------------------------------------------------------------------
  // The directions
  // ---------------------------------------------------------------------------

  function Pow2(n: nat): (p: nat)
    ensures p >= 1
  {
    if n == 0 then 1 else 2 * Pow2(n - 1)
  }

  /** A byte's `n` lowest bits, least significant first. */
  function LowBits(b: nat, n: nat): (bits: seq<bool>)
    ensures |bits| == n
  {
    if n == 0 then [] else [b % 2 == 1] + LowBits(b / 2, n - 1)
  }

  /** The first `n` bits of a byte string. */
  function BitsOf(dirs: Bytes, n: nat): (bits: seq<bool>)
    requires n <= 8 * |dirs|
    ensures |bits| == n
  {
    if n <= 8 then (if n == 0 then [] else LowBits(dirs[0], n))
    else LowBits(dirs[0], 8) + BitsOf(dirs[1..], n - 8)
  }

  function PackByte(bits: seq<bool>): (b: nat)
    ensures b < Pow2(|bits|)
  {
    if bits == [] then 0 else (if bits[0] then 1 else 0) + 2 * PackByte(bits[1..])
  }

  lemma {:induction false} PowMonotone(m: nat, n: nat)
    requires m <= n
    ensures Pow2(m) <= Pow2(n)
  {
    if m < n {
      PowMonotone(m, n - 1);
    }
  }

  /** Bits packed least significant first, the last byte padded with zeros. */
  function Pack(bits: seq<bool>): (dirs: Bytes)
    ensures |dirs| == (|bits| + 7) / 8
  {
    if bits == [] then []
    else
      var n := if |bits| < 8 then |bits| else 8;
      PowMonotone(n, 8);
      assert Pow2(8) == 256;
      [PackByte(bits[..n])] + Pack(bits[n..])
  }

  // ---------------------------------------------------------------------------
  // The canonical proof
  // ---------------------------------------------------------------------------

  /** The one proof a prover writes for the cycle and these directions. */
  function Regenerated(c: Cycle, directions: seq<bool>): Bytes {
    Serialise(c, c.oldRoot, false).bytes + [PACKED_END_OF_TREE] + Pack(directions)
  }

  /** The bits from `start` up to `end`, where the proof holds them all and `start` is a byte's first bit. */
  function DirectionsRead(proof: Bytes, start: nat, end: nat): Option<seq<bool>> {
    if start % 8 == 0 && start <= end <= 8 * |proof| then Some(BitsOf(proof[start / 8..], end - start)) else None
  }

  /** `proof` is exactly the one a prover writes for the bits it holds at `start` up to `end`. */
  ghost predicate IsCanonical(c: Cycle, proof: Bytes, start: nat, end: nat) {
    && !Serialise(c, c.oldRoot, false).stuck
    && start == 8 * (|Serialise(c, c.oldRoot, false).bytes| + 1)
    && DirectionsRead(proof, start, end).Some?
    && proof == Regenerated(c, DirectionsRead(proof, start, end).value)
  }

  // ---------------------------------------------------------------------------
  // The explicit stack
  // ---------------------------------------------------------------------------

  /** A node still to write, or the balance byte of an internal node whose subtrees stand above it. */
  datatype Entry = Node(node: AvlNode) | Balance(b: Byte)

  function SerialiseEntry(c: Cycle, entry: Entry, afterLeaf: bool): Emission {
    match entry
    case Node(node) => Serialise(c, node, afterLeaf)
    case Balance(b) => Emission([b], afterLeaf, false)
  }

  /** What the entries write, the last one first. */
  ghost function SerialiseStack(c: Cycle, stack: seq<Entry>, afterLeaf: bool): Emission
    decreases |stack|
  {
    if stack == [] then Emission([], afterLeaf, false)
    else
      var top := SerialiseEntry(c, stack[|stack| - 1], afterLeaf);
      Then(top, SerialiseStack(c, stack[..|stack| - 1], top.afterLeaf))
  }

  lemma StackTop(c: Cycle, rest: seq<Entry>, entry: Entry, afterLeaf: bool)
    ensures SerialiseStack(c, rest + [entry], afterLeaf) ==
      var top := SerialiseEntry(c, entry, afterLeaf);
      Then(top, SerialiseStack(c, rest, top.afterLeaf))
  {
    assert (rest + [entry])[..|rest|] == rest;
  }

  lemma ThenAssociates(l: Emission, r: Emission, b: Emission, under: Emission)
    requires !b.stuck
    ensures Then(Then(Then(l, r), b), under) == Then(l, Then(r, Then(b, under)))
  {
    assert (l.bytes + r.bytes + b.bytes) + under.bytes == l.bytes + (r.bytes + (b.bytes + under.bytes));
  }

  lemma ThreeTops(c: Cycle, rest: seq<Entry>, b: Entry, r: Entry, l: Entry, afterLeaf: bool)
    ensures SerialiseStack(c, rest + [b] + [r] + [l], afterLeaf) ==
      var left := SerialiseEntry(c, l, afterLeaf);
      var right := SerialiseEntry(c, r, left.afterLeaf);
      var balance := SerialiseEntry(c, b, right.afterLeaf);
      Then(left, Then(right, Then(balance, SerialiseStack(c, rest, balance.afterLeaf))))
  {
    var left := SerialiseEntry(c, l, afterLeaf);
    var right := SerialiseEntry(c, r, left.afterLeaf);
    StackTop(c, rest + [b] + [r], l, afterLeaf);
    StackTop(c, rest + [b], r, left.afterLeaf);
    StackTop(c, rest, b, right.afterLeaf);
  }

  /** An internal node popped and its balance and subtrees pushed: the stack writes what it wrote. */
  lemma PushedSubtreesSerialise(c: Cycle, rest: seq<Entry>, node: AvlNode, afterLeaf: bool)
    requires node.Internal? && node.ref in c.visited
    ensures SerialiseStack(c, rest + [Node(node)], afterLeaf) ==
      SerialiseStack(c, rest + [Balance(node.balance % 256)] + [Node(node.right)] + [Node(node.left)], afterLeaf)
  {
    var l := Serialise(c, node.left, afterLeaf);
    var r := Serialise(c, node.right, l.afterLeaf);
    var b := Emission([node.balance % 256], r.afterLeaf, false);
    StackTop(c, rest, Node(node), afterLeaf);
    ThreeTops(c, rest, Balance(node.balance % 256), Node(node.right), Node(node.left), afterLeaf);
    ThenAssociates(l, r, b, SerialiseStack(c, rest, r.afterLeaf));
  }

  function NodeSize(node: AvlNode): nat {
    match node
    case Internal(_, _, left, right) => 2 + NodeSize(left) + NodeSize(right)
    case _ => 1
  }

  function EntrySize(entry: Entry): nat {
    match entry
    case Node(node) => NodeSize(node)
    case Balance(_) => 1
  }

  ghost function StackSize(stack: seq<Entry>): nat {
    if stack == [] then 0 else StackSize(stack[..|stack| - 1]) + EntrySize(stack[|stack| - 1])
  }

  lemma StackSizeTop(rest: seq<Entry>, entry: Entry)
    ensures StackSize(rest + [entry]) == StackSize(rest) + EntrySize(entry)
  {
    assert (rest + [entry])[..|rest|] == rest;
  }

  // ---------------------------------------------------------------------------
  // The comparison
  // ---------------------------------------------------------------------------

  /** Whether `proof` carries `bs` at `at`. */
  predicate CarriesAt(proof: Bytes, at: nat, bs: Bytes) {
    at + |bs| <= |proof| && proof[at..at + |bs|] == bs
  }

  method BytesAre(proof: Bytes, at: nat, bs: Bytes) returns (same: bool)
    ensures same <==> CarriesAt(proof, at, bs)
  {
    if at + |bs| > |proof| {
      return false;
    }
    for j := 0 to |bs|
      invariant proof[at..at + j] == bs[..j]
    {
      if proof[at + j] != bs[j] {
        assert proof[at..at + |bs|][j] == proof[at + j];
        return false;
      }
      assert proof[at..at + j + 1] == proof[at..at + j] + [proof[at + j]];
    }
    same := true;
  }

  /** The tree's comparison stopped at a byte that differs, at a visited stub, or past the tree's last byte. */
  datatype TreeOutcome = Differs | AtStub | EndsAt(at: nat)

  /** The walk's outcome is the serialisation's: a stub counts only where every byte before it agrees. */
  ghost predicate ComparesTo(proof: Bytes, e: Emission, outcome: TreeOutcome) {
    match outcome
    case Differs => !(e.bytes <= proof)
    case AtStub => e.stuck && e.bytes <= proof
    case EndsAt(at) => !e.stuck && e.bytes <= proof && at == |e.bytes|
  }

  /** The tree's serialisation is what is matched so far, then what the stack still writes. */
  ghost predicate Matched(c: Cycle, proof: Bytes, at: nat, stack: seq<Entry>, afterLeaf: bool) {
    var whole := Serialise(c, c.oldRoot, false);
    var todo := SerialiseStack(c, stack, afterLeaf);
    && at <= |proof|
    && whole.bytes == proof[..at] + todo.bytes
    && whole.stuck == todo.stuck
  }

  lemma PrefixCarries(proof: Bytes, before: Bytes, token: Bytes, after: Bytes)
    ensures before + token + after <= proof ==> CarriesAt(proof, |before|, token)
  {
    var whole := before + token + after;
    assert whole[|before|..|before| + |token|] == token;
    if whole <= proof {
      assert proof[|before|..|before| + |token|] == whole[|before|..|before| + |token|];
    }
  }

  /** A token that agrees moves the cursor past it; one that does not settles the comparison. */
  lemma TokenMatched(c: Cycle, proof: Bytes, at: nat, rest: seq<Entry>, entry: Entry, afterLeaf: bool)
    requires Matched(c, proof, at, rest + [entry], afterLeaf)
    requires !SerialiseEntry(c, entry, afterLeaf).stuck
    ensures var token := SerialiseEntry(c, entry, afterLeaf);
      if CarriesAt(proof, at, token.bytes) then Matched(c, proof, at + |token.bytes|, rest, token.afterLeaf)
      else !(Serialise(c, c.oldRoot, false).bytes <= proof)
  {
    StackTop(c, rest, entry, afterLeaf);
    var token := SerialiseEntry(c, entry, afterLeaf);
    var whole := Serialise(c, c.oldRoot, false);
    var under := SerialiseStack(c, rest, token.afterLeaf);
    assert whole.bytes == proof[..at] + token.bytes + under.bytes;
    if CarriesAt(proof, at, token.bytes) {
      assert proof[..at + |token.bytes|] == proof[..at] + token.bytes;
    } else {
      PrefixCarries(proof, proof[..at], token.bytes, under.bytes);
    }
  }

  lemma NothingLeft(c: Cycle, proof: Bytes, at: nat, afterLeaf: bool)
    requires Matched(c, proof, at, [], afterLeaf)
    ensures ComparesTo(proof, Serialise(c, c.oldRoot, false), EndsAt(at))
  {
    assert proof[..at] + [] == proof[..at];
  }

  lemma StubReached(c: Cycle, proof: Bytes, at: nat, rest: seq<Entry>, node: AvlNode, afterLeaf: bool)
    requires node.Stub? && node.ref in c.visited
    requires Matched(c, proof, at, rest + [Node(node)], afterLeaf)
    ensures ComparesTo(proof, Serialise(c, c.oldRoot, false), AtStub)
  {
    StackTop(c, rest, Node(node), afterLeaf);
    assert proof[..at] + [] == proof[..at];
  }

  lemma CarriesBoth(proof: Bytes, at: nat, xs: Bytes, ys: Bytes)
    ensures CarriesAt(proof, at, xs + ys) <==> CarriesAt(proof, at, xs) && CarriesAt(proof, at + |xs|, ys)
  {
    if at + |xs| + |ys| <= |proof| {
      var both := proof[at..at + |xs + ys|];
      assert both[..|xs|] == proof[at..at + |xs|];
      assert both[|xs|..] == proof[at + |xs|..at + |xs| + |ys|];
      assert both == both[..|xs|] + both[|xs|..];
      assert (xs + ys)[..|xs|] == xs && (xs + ys)[|xs|..] == ys;
    }
  }

  /** One part after another, stopping at the first that differs. */
  method PartsAre(proof: Bytes, at: nat, parts: seq<Bytes>) returns (same: bool, next: nat)
    ensures same <==> CarriesAt(proof, at, Concat(parts))
    ensures same ==> next == at + |Concat(parts)|
    decreases |parts|
  {
    if parts == [] {
      return at <= |proof|, at;
    }
    CarriesBoth(proof, at, parts[0], Concat(parts[1..]));
    same := BytesAre(proof, at, parts[0]);
    next := at;
    if same {
      same, next := PartsAre(proof, at + |parts[0]|, parts[1..]);
    }
  }

  /** A step of the walk: the comparison settled, or the cursor and the stack moved on. */
  datatype Step = Settled(outcome: TreeOutcome) | Onward(at: nat, stack: seq<Entry>, afterLeaf: bool)

  ghost predicate StepsFrom(c: Cycle, proof: Bytes, stack: seq<Entry>, step: Step) {
    match step
    case Settled(outcome) => ComparesTo(proof, Serialise(c, c.oldRoot, false), outcome)
    case Onward(at, next, afterLeaf) => Matched(c, proof, at, next, afterLeaf) && StackSize(next) < StackSize(stack)
  }

  /** A token written whole: a balance byte, an unvisited node's label, a visited leaf. */
  method WriteToken(c: Cycle, proof: Bytes, at: nat, rest: seq<Entry>, entry: Entry, afterLeaf: bool,
    parts: seq<Bytes>, leaf: bool)
    returns (step: Step)
    requires Matched(c, proof, at, rest + [entry], afterLeaf)
    requires SerialiseEntry(c, entry, afterLeaf) == Emission(Concat(parts), leaf, false)
    ensures StepsFrom(c, proof, rest + [entry], step)
  {
    TokenMatched(c, proof, at, rest, entry, afterLeaf);
    StackSizeTop(rest, entry);
    var same, next := PartsAre(proof, at, parts);
    if !same {
      return Settled(Differs);
    }
    step := Onward(next, rest, leaf);
  }

  lemma PushedMatched(c: Cycle, proof: Bytes, at: nat, rest: seq<Entry>, node: AvlNode, afterLeaf: bool)
    requires node.Internal? && node.ref in c.visited
    requires Matched(c, proof, at, rest + [Node(node)], afterLeaf)
    ensures var pushed := rest + [Balance(node.balance % 256)] + [Node(node.right)] + [Node(node.left)];
      Matched(c, proof, at, pushed, afterLeaf) && StackSize(pushed) < StackSize(rest + [Node(node)])
  {
    var pushed := rest + [Balance(node.balance % 256)];
    PushedSubtreesSerialise(c, rest, node, afterLeaf);
    StackSizeTop(rest, Node(node));
    StackSizeTop(rest, Balance(node.balance % 256));
    StackSizeTop(pushed, Node(node.right));
    StackSizeTop(pushed + [Node(node.right)], Node(node.left));
  }

  /** One entry popped and written. */
  method StepTree(c: Cycle, proof: Bytes, at: nat, rest: seq<Entry>, entry: Entry, afterLeaf: bool) returns (step: Step)
    requires Matched(c, proof, at, rest + [entry], afterLeaf)
    ensures StepsFrom(c, proof, rest + [entry], step)
  {
    match entry {
      case Balance(b) =>
        step := WriteToken(c, proof, at, rest, entry, afterLeaf, [[b]], afterLeaf);
      case Node(node) =>
        if node.ref !in c.visited {
          var parts: seq<Bytes> := [[PACKED_LABEL], (c.labelOf)(node)];
          assert parts[1..] == [(c.labelOf)(node)];
          assert Concat(parts[1..]) == (c.labelOf)(node);
          step := WriteToken(c, proof, at, rest, entry, afterLeaf, parts, false);
        } else if node.Leaf? {
          step := WriteToken(c, proof, at, rest, entry, afterLeaf, LeafParts(c, node, afterLeaf), true);
        } else if node.Internal? {
          PushedMatched(c, proof, at, rest, node, afterLeaf);
          step := Onward(at, rest + [Balance(node.balance % 256)] + [Node(node.right)] + [Node(node.left)], afterLeaf);
        } else {
          StubReached(c, proof, at, rest, node, afterLeaf);
          step := Settled(AtStub);
        }
    }
  }

  lemma NothingWritten(c: Cycle, proof: Bytes)
    ensures Matched(c, proof, 0, [Node(c.oldRoot)], false)
  {
    StackTop(c, [], Node(c.oldRoot), false);
    assert [] + [Node(c.oldRoot)] == [Node(c.oldRoot)];
    var whole := Serialise(c, c.oldRoot, false);
    assert whole.bytes + [] == whole.bytes;
    assert proof[..0] + whole.bytes == whole.bytes;
  }

  /** The packed tree: an explicit stack, so the walk costs no native frame a level. */
  method CompareTree(c: Cycle, proof: Bytes) returns (outcome: TreeOutcome)
    ensures ComparesTo(proof, Serialise(c, c.oldRoot, false), outcome)
  {
    var at: nat := 0;
    var afterLeaf := false;
    var stack := [Node(c.oldRoot)];
    NothingWritten(c, proof);
    while stack != []
      invariant Matched(c, proof, at, stack, afterLeaf)
      decreases StackSize(stack)
    {
      assert stack == stack[..|stack| - 1] + [stack[|stack| - 1]];
      var step := StepTree(c, proof, at, stack[..|stack| - 1], stack[|stack| - 1], afterLeaf);
      match step {
        case Settled(settled) => return settled;
        case Onward(next, under, leaf) => at, stack, afterLeaf := next, under, leaf;
      }
    }
    NothingLeft(c, proof, at, afterLeaf);
    outcome := EndsAt(at);
  }

  // ---------------------------------------------------------------------------
  // The directions region
  // ---------------------------------------------------------------------------

  /** `b >>> n`. */
  function ShiftRight(b: nat, n: nat): nat {
    if n == 0 then b else ShiftRight(b / 2, n - 1)
  }

  lemma {:induction false} PackedLowBits(b: nat, n: nat)
    ensures PackByte(LowBits(b, n)) == b <==> ShiftRight(b, n) == 0
  {
    if n > 0 {
      PackedLowBits(b / 2, n - 1);
      assert LowBits(b, n)[1..] == LowBits(b / 2, n - 1);
    }
  }

  lemma WholeByte(b: Byte)
    ensures PackByte(LowBits(b, 8)) == b
  {
    PackedLowBits(b, 8);
    var high := b / 2 / 2 / 2 / 2;
    assert ShiftRight(b, 8) == ShiftRight(b / 2 / 2, 6);
    assert ShiftRight(b / 2 / 2, 6) == ShiftRight(high, 4);
    assert ShiftRight(high, 4) == ShiftRight(high / 2 / 2, 2);
  }

  /** The unused bits of the region's last byte. */
  predicate PaddingIsZero(dirs: Bytes, n: nat)
    requires |dirs| == (n + 7) / 8
  {
    n % 8 != 0 ==> ShiftRight(dirs[|dirs| - 1], n % 8) == 0
  }

  lemma LastByteIsPacked(dirs: Bytes, n: nat)
    requires |dirs| == 1 && 0 < n <= 8
    ensures dirs == Pack(BitsOf(dirs, n)) <==> PaddingIsZero(dirs, n)
  {
    var bits := BitsOf(dirs, n);
    assert bits[..n] == bits && bits[n..] == [];
    assert Pack(bits) == [PackByte(bits)];
    if n < 8 {
      PackedLowBits(dirs[0], n);
    } else {
      WholeByte(dirs[0]);
    }
  }

  lemma PackWholeByte(first: seq<bool>, rest: seq<bool>)
    requires |first| == 8
    ensures PackByte(first) < 256
    ensures Pack(first + rest) == [PackByte(first)] + Pack(rest)
  {
    assert Pow2(8) == 256;
    assert (first + rest)[..8] == first && (first + rest)[8..] == rest;
  }

  lemma PaddingOfTail(dirs: Bytes, n: nat)
    requires n > 8 && |dirs| == (n + 7) / 8
    ensures PaddingIsZero(dirs, n) <==> PaddingIsZero(dirs[1..], n - 8)
  {
    assert (n - 8) % 8 == n % 8;
  }

  lemma PackedTail(dirs: Bytes, n: nat)
    requires n > 8 && |dirs| == (n + 7) / 8
    ensures dirs == Pack(BitsOf(dirs, n)) <==> dirs[1..] == Pack(BitsOf(dirs[1..], n - 8))
  {
    var rest := BitsOf(dirs[1..], n - 8);
    WholeByte(dirs[0]);
    PackWholeByte(LowBits(dirs[0], 8), rest);
    assert BitsOf(dirs, n) == LowBits(dirs[0], 8) + rest;
    HeadAndTail(dirs, dirs[0], Pack(rest));
  }

  lemma HeadAndTail(dirs: Bytes, first: Byte, rest: Bytes)
    requires dirs != [] && dirs[0] == first
    ensures dirs == [first] + rest <==> dirs[1..] == rest
  {
    assert dirs == [first] + dirs[1..];
    assert ([first] + rest)[1..] == rest;
  }

  /** A region of the right length is its bits packed exactly where its padding is zero. */
  lemma {:induction false} RegionIsPacked(dirs: Bytes, n: nat)
    requires |dirs| == (n + 7) / 8
    ensures dirs == Pack(BitsOf(dirs, n)) <==> PaddingIsZero(dirs, n)
  {
    if n > 8 {
      PackedTail(dirs, n);
      PaddingOfTail(dirs, n);
      RegionIsPacked(dirs[1..], n - 8);
    } else if n > 0 {
      LastByteIsPacked(dirs, n);
    }
  }

  // ---------------------------------------------------------------------------
  // matchesCanonicalProof
  // ---------------------------------------------------------------------------

  datatype Outcome = Answer(canonical: bool) | InconsistentCursor | StubVisited

  lemma CanonicalRegion(c: Cycle, proof: Bytes, start: nat, end: nat, at: nat)
    requires !Serialise(c, c.oldRoot, false).stuck
    requires Serialise(c, c.oldRoot, false).bytes <= proof && at == |Serialise(c, c.oldRoot, false).bytes|
    requires start <= end
    requires CarriesAt(proof, at, [PACKED_END_OF_TREE]) && 8 * (at + 1) == start
    ensures IsCanonical(c, proof, start, end) <==>
      |proof| == at + 1 + (end - start + 7) / 8 && PaddingIsZero(proof[at + 1..], end - start)
  {
    var whole := Serialise(c, c.oldRoot, false).bytes;
    var dirs := proof[at + 1..];
    assert proof[..at] == whole;
    assert proof == whole + [PACKED_END_OF_TREE] + dirs;
    if |dirs| == (end - start + 7) / 8 {
      RegionIsPacked(dirs, end - start);
    }
    if start <= end <= 8 * |proof| {
      var packed := Pack(BitsOf(dirs, end - start));
      if proof == whole + [PACKED_END_OF_TREE] + packed {
        assert dirs == packed;
      }
    }
  }

  /**
   * True exactly on the proof a prover writes for the cycle and the bits read.
   * Neither throw is a verdict: a cursor that ends before it starts, and a stub
   * in the visited set reached with every byte before it agreeing.
   */
  method MatchesCanonicalProof(c: Cycle, proof: Bytes, directionsStartBit: nat,
    directionsEndBit: nat) returns (r: Outcome)
    ensures r.InconsistentCursor? <==> directionsEndBit < directionsStartBit
    ensures r.StubVisited? <==>
      directionsStartBit <= directionsEndBit && Serialise(c, c.oldRoot, false).stuck
          && Serialise(c, c.oldRoot, false).bytes <= proof
    ensures r == Answer(true) <==> IsCanonical(c, proof, directionsStartBit, directionsEndBit)
  {
    ghost var whole := Serialise(c, c.oldRoot, false);
    if directionsEndBit < directionsStartBit {
      return InconsistentCursor;
    }
    var tree := CompareTree(c, proof);
    if tree.Differs? {
      return Answer(false);
    }
    if tree.AtStub? {
      return StubVisited;
    }
    var at := tree.at;
    var ends := BytesAre(proof, at, [PACKED_END_OF_TREE]);
    if !ends || 8 * (at + 1) != directionsStartBit {
      NotCanonicalAt(c, proof, directionsStartBit, directionsEndBit);
      return Answer(false);
    }
    at := at + 1;
    CanonicalRegion(c, proof, directionsStartBit, directionsEndBit, at - 1);
    var bits := directionsEndBit - directionsStartBit;
    if |proof| != at + (bits + 7) / 8 {
      return Answer(false);
    }
    var usedInLastByte := bits % 8;
    if usedInLastByte != 0 && ShiftRight(proof[|proof| - 1], usedInLastByte) != 0 {
      return Answer(false);
    }
    r := Answer(true);
  }

  /** What a canonical proof carries at the tree's end. */
  lemma NotCanonicalAt(c: Cycle, proof: Bytes, start: nat, end: nat)
    ensures IsCanonical(c, proof, start, end) ==>
      && Serialise(c, c.oldRoot, false).bytes <= proof
      && CarriesAt(proof, |Serialise(c, c.oldRoot, false).bytes|, [PACKED_END_OF_TREE])
      && start == 8 * (|Serialise(c, c.oldRoot, false).bytes| + 1)
  {
  }

  // ---------------------------------------------------------------------------
  // One byte string a replay
  // ---------------------------------------------------------------------------

  lemma {:induction false} PackedBitsRead(bits: seq<bool>)
    ensures BitsOf(Pack(bits), |bits|) == bits
  {
    if bits != [] {
      var n := if |bits| < 8 then |bits| else 8;
      PowMonotone(n, 8);
      assert Pow2(8) == 256;
      UnpackedByte(bits[..n]);
      assert bits == bits[..n] + bits[n..];
      if |bits| > 8 {
        PackedBitsRead(bits[8..]);
        assert Pack(bits)[1..] == Pack(bits[8..]);
      } else {
        assert bits[..n] == bits;
      }
    }
  }

  lemma {:induction false} UnpackedByte(bits: seq<bool>)
    ensures LowBits(PackByte(bits), |bits|) == bits
  {
    if bits != [] {
      UnpackedByte(bits[1..]);
      assert bits == [bits[0]] + bits[1..];
    }
  }

  /** Existence: for every directions there is an accepted proof, and it is read back as those directions. */
  lemma RegeneratedIsCanonical(c: Cycle, directions: seq<bool>)
    requires !Serialise(c, c.oldRoot, false).stuck
    ensures var proof := Regenerated(c, directions);
      var start := 8 * (|Serialise(c, c.oldRoot, false).bytes| + 1);
      && IsCanonical(c, proof, start, start + |directions|)
      && DirectionsRead(proof, start, start + |directions|) == Some(directions)
  {
    var proof := Regenerated(c, directions);
    var whole := Serialise(c, c.oldRoot, false).bytes;
    assert proof[|whole| + 1..] == Pack(directions);
    PackedBitsRead(directions);
  }

  /** The last byte's bits above the packed ones are zero. */
  lemma {:induction false} PackedPadding(bits: seq<bool>)
    requires |bits| % 8 != 0
    ensures Pack(bits) != [] && Pack(bits)[|Pack(bits)| - 1] < Pow2(|bits| % 8)
    decreases |bits|
  {
    if |bits| >= 8 {
      PackedPadding(bits[8..]);
      assert Pack(bits)[1..] == Pack(bits[8..]);
    } else {
      assert bits[..|bits|] == bits && Pack(bits[|bits|..]) == [];
    }
  }

  /**
   * Two accepted proofs of one cycle differ in their directions alone: the tree and its end token are the same
   * bytes, the lengths agree, the padding is zero, and equal directions make equal proofs.
   */
  lemma CanonicalUpToDirections(c: Cycle, p: Bytes, q: Bytes, start: nat, end: nat)
    requires IsCanonical(c, p, start, end) && IsCanonical(c, q, start, end)
    ensures |p| == |q| == start / 8 + (end - start + 7) / 8
    ensures p[..start / 8] == q[..start / 8]
    ensures p == q <==> BitsOf(p[start / 8..], end - start) == BitsOf(q[start / 8..], end - start)
    ensures (end - start) % 8 != 0 ==> p[|p| - 1] < Pow2((end - start) % 8)
  {
    var tree := Serialise(c, c.oldRoot, false).bytes + [PACKED_END_OF_TREE];
    var bits := DirectionsRead(p, start, end).value;
    assert p == tree + Pack(bits) && |tree| == start / 8;
    assert q == tree + Pack(DirectionsRead(q, start, end).value);
    assert p[..|tree|] == tree && q[..|tree|] == tree;
    if |bits| % 8 != 0 {
      PackedPadding(bits);
    }
  }
}
