/** Genesis as tree writes: seeding the empty tree leaves the tree of the genesis state. */
module TreeSeed {
  import opened Wrappers
  import opened Sums
  import opened Orders
  import opened Sorting
  import opened Ledger
  import opened Engine
  import opened Applying
  import opened Coinbase
  import opened Queries
  import opened Effects
  import opened Tree
  import opened TreeWrites
  import opened TreeBlock
  import opened TreeUpdate

  type SeedRecordEntry = (Key, IdentityRecord)

  // ---------------------------------------------------------------------------
  // The genesis state
  // ---------------------------------------------------------------------------

  function BoxMap(boxes: seq<Live>): Boxes {
    if boxes == [] then map[] else map[boxes[0].id := boxes[0].box] + BoxMap(boxes[1..])
  }

  function RecordMap(records: seq<SeedRecordEntry>): Records {
    if records == [] then map[] else map[records[0].0 := records[0].1] + RecordMap(records[1..])
  }

  /** The state a seed describes: boxes, records and a member count, no name, post or like. */
  function SeedState(boxes: seq<Live>, records: seq<SeedRecordEntry>, memberCount: int): State {
    State(BoxMap(boxes), RecordMap(records), memberCount, map[], map[], map[], {})
  }

  function RecordKeys(records: seq<SeedRecordEntry>): (ks: seq<Key>)
    ensures |ks| == |records|
    ensures forall i | 0 <= i < |ks| :: ks[i] == records[i].0
  {
    if records == [] then [] else [records[0].0] + RecordKeys(records[1..])
  }

  /** A bond's invitee holds a record among the seed's. */
  predicate Recorded(records: Records, b: Box) { b.Bond? ==> b.inviteePublicKey in records }

  predicate BondsRecorded(boxes: seq<Live>, records: Records) {
    forall l | l in boxes :: Recorded(records, l.box)
  }

  /** A seed names each box, each identity and each vouched pair once, and a record for each bond's invitee. */
  ghost predicate Seedable(boxes: seq<Live>, records: seq<SeedRecordEntry>) {
    && Distinct(Ids(boxes)) && Distinct(RecordKeys(records))
    && PairsOnce(BoxMap(boxes)) && BondsRecorded(boxes, RecordMap(records))
  }

  lemma {:induction false} BoxMapHolds(boxes: seq<Live>)
    requires Distinct(Ids(boxes))
    ensures LiveList(BoxMap(boxes), boxes) && BoxMap(boxes).Keys == IdSet(boxes)
    decreases |boxes|
  {
    if boxes != [] {
      assert Ids(boxes)[1..] == Ids(boxes[1..]);
      DistinctTail(Ids(boxes));
      BoxMapHolds(boxes[1..]);
      IdsAreIdSet(boxes[1..]);
      assert boxes[0].id !in Members(Ids(boxes[1..])) by {
        forall i | 0 <= i < |Ids(boxes[1..])| ensures Ids(boxes[1..])[i] != boxes[0].id {
          assert Ids(boxes)[i + 1] != Ids(boxes)[0];
        }
      }
      forall l | l in boxes ensures l.id in BoxMap(boxes) && BoxMap(boxes)[l.id] == l.box {
        assert l == boxes[0] || l in boxes[1..];
      }
    }
  }

  lemma {:induction false} RecordMapHolds(records: seq<SeedRecordEntry>)
    requires Distinct(RecordKeys(records))
    ensures forall r | r in records :: r.0 in RecordMap(records) && RecordMap(records)[r.0] == r.1
    ensures forall k | k in RecordMap(records) :: (k, RecordMap(records)[k]) in records
    decreases |records|
  {
    if records != [] {
      var rest := records[1..];
      assert RecordKeys(records)[1..] == RecordKeys(rest);
      DistinctTail(RecordKeys(records));
      RecordMapHolds(rest);
      forall r | r in rest ensures r.0 != records[0].0 {
        var i :| 0 <= i < |rest| && rest[i] == r;
        assert RecordKeys(records)[i + 1] != RecordKeys(records)[0];
      }
      forall r | r in records ensures r.0 in RecordMap(records) && RecordMap(records)[r.0] == r.1 {
        assert r == records[0] || r in rest;
      }
    }
  }

  lemma CastsAreCounted(boxes: seq<Live>, k: Key)
    requires Distinct(Ids(boxes))
    ensures CastsOf(BoxMap(boxes), k) == Casts(boxes, k)
  {
    var all := BoxMap(boxes);
    BoxMapHolds(boxes);
    CastsAreSum(all, boxes, k);
    IdsAreIdSet(boxes);
    MapSumRemoveAll(all, CastWeight(k), Ids(boxes));
    assert all - Members(Ids(boxes)) == map[];
  }

  // ---------------------------------------------------------------------------
  // The writes
  // ---------------------------------------------------------------------------

  /** A box's own entry and its index entries, a bond's due height its invitee's. */
  function BoxWriter(records: Records): Live -> seq<TreeWrite> {
    (l: Live) => Inserts(Entries(l.id, l.box, GrantIn(records, l.box)))
  }

  function CastWriter(casts: map<Key, nat>): Key -> seq<TreeWrite> {
    (k: Key) => if k in casts then [Insert(CastCountKey(k), CastCount(casts[k]))] else []
  }

  /** A record, and its lapsed entry where its identity is lapsed and casts. */
  function RecordWriterOf(casts: map<Key, nat>): SeedRecordEntry -> seq<TreeWrite> {
    (r: SeedRecordEntry) =>
      [Insert(IdentityKey(r.0), IdentityValue(r.1))]
      + if IsLapsedMember(r.1) && r.0 in casts then [Insert(LapsedKey(r.0), IndexMarker)] else []
  }

  /** The counts of the vouchers met so far. */
  ghost predicate Counted(boxes: seq<Live>, casts: map<Key, nat>) {
    casts.Keys == Movers(boxes) && forall k | k in casts :: casts[k] == Casts(boxes, k) > 0
  }

  ghost function SeedWrites(
    boxes: seq<Live>, records: seq<SeedRecordEntry>, memberCount: int, casts: map<Key, nat>, vouchers: seq<Key>)
    : seq<TreeWrite>
  {
    Emit(boxes, BoxWriter(RecordMap(records))) + Emit(vouchers, CastWriter(casts))
    + Emit(records, RecordWriterOf(casts)) + [Insert(NetworkKey, NetworkValue(memberCount))]
  }

  // ---------------------------------------------------------------------------
  // Each write is right, and nothing is missed
  // ---------------------------------------------------------------------------

  lemma {:induction false} EmittedBy<T(!new)>(xs: seq<T>, f: T -> seq<TreeWrite>)
    ensures forall w | w in Emit(xs, f) :: exists x :: x in xs && w in f(x)
    ensures forall x, w | x in xs && w in f(x) :: w in Emit(xs, f)
    decreases |xs|
  {
    if xs != [] {
      EmittedBy(xs[1..], f);
      forall w | w in Emit(xs, f) ensures exists x :: x in xs && w in f(x) {
        if w in f(xs[0]) {
          assert xs[0] in xs;
        } else {
          assert w in Emit(xs[1..], f);
          var x :| x in xs[1..] && w in f(x);
          assert x in xs;
        }
      }
      forall x, w | x in xs && w in f(x) ensures w in Emit(xs, f) {
        assert x == xs[0] || x in xs[1..];
      }
    }
  }

  lemma InsertedEntry(es: seq<(TreeKey, TreeValue)>, w: TreeWrite)
    ensures w in Inserts(es) <==> w.Insert? && (w.key, w.value) in es
  {
    if w in Inserts(es) {
      var i :| 0 <= i < |es| && Inserts(es)[i] == w;
      assert es[i] == (w.key, w.value);
    }
    if w.Insert? && (w.key, w.value) in es {
      var i :| 0 <= i < |es| && es[i] == (w.key, w.value);
      assert Inserts(es)[i] == w;
    }
  }

  /** An insert of what the state gives the key. */
  ghost predicate RightSeed(u: State, w: TreeWrite) { w.Insert? && TreeAt(u, w.key) == Some(w.value) }

  lemma BoxWritesRight(boxes: seq<Live>, records: seq<SeedRecordEntry>, memberCount: int, l: Live, w: TreeWrite)
    requires Seedable(boxes, records) && l in boxes && w in BoxWriter(RecordMap(records))(l)
    ensures RightSeed(SeedState(boxes, records, memberCount), w) && BoxDomain(w.key)
  {
    var u := SeedState(boxes, records, memberCount);
    BoxMapHolds(boxes);
    InsertedEntry(Entries(l.id, l.box, GrantIn(u.records, l.box)), w);
    EntryHeld(u, l.id, (w.key, w.value));
  }

  lemma CastWritesRight(
    boxes: seq<Live>, records: seq<SeedRecordEntry>, memberCount: int, casts: map<Key, nat>, k: Key, w: TreeWrite)
    requires Seedable(boxes, records) && Counted(boxes, casts) && w in CastWriter(casts)(k)
    ensures RightSeed(SeedState(boxes, records, memberCount), w) && w.key == CastCountKey(k)
  {
    CastsAreCounted(boxes, k);
  }

  lemma RecordWritesRight(
    boxes: seq<Live>, records: seq<SeedRecordEntry>, memberCount: int, casts: map<Key, nat>, r: SeedRecordEntry,
    w: TreeWrite)
    requires Seedable(boxes, records) && Counted(boxes, casts) && r in records && w in RecordWriterOf(casts)(r)
    ensures RightSeed(SeedState(boxes, records, memberCount), w)
    ensures w.key == IdentityKey(r.0) || w.key == LapsedKey(r.0)
  {
    RecordMapHolds(records);
    CastsAreCounted(boxes, r.0);
  }

  lemma AllRight(
    boxes: seq<Live>, records: seq<SeedRecordEntry>, memberCount: int, casts: map<Key, nat>, vouchers: seq<Key>,
    w: TreeWrite)
    requires Seedable(boxes, records) && Counted(boxes, casts)
    requires w in SeedWrites(boxes, records, memberCount, casts, vouchers)
    ensures RightSeed(SeedState(boxes, records, memberCount), w)
  {
    EmittedBy(boxes, BoxWriter(RecordMap(records)));
    EmittedBy(vouchers, CastWriter(casts));
    EmittedBy(records, RecordWriterOf(casts));
    if w in Emit(boxes, BoxWriter(RecordMap(records))) {
      var l :| l in boxes && w in BoxWriter(RecordMap(records))(l);
      BoxWritesRight(boxes, records, memberCount, l, w);
    } else if w in Emit(vouchers, CastWriter(casts)) {
      var k :| k in vouchers && w in CastWriter(casts)(k);
      CastWritesRight(boxes, records, memberCount, casts, k, w);
    } else if w in Emit(records, RecordWriterOf(casts)) {
      var r :| r in records && w in RecordWriterOf(casts)(r);
      RecordWritesRight(boxes, records, memberCount, casts, r, w);
    }
  }

  /** A key the genesis state gives a value is written. */
  lemma NoneMissed(
    boxes: seq<Live>, records: seq<SeedRecordEntry>, memberCount: int, casts: map<Key, nat>, vouchers: seq<Key>,
    key: TreeKey)
    requires Seedable(boxes, records) && Counted(boxes, casts) && Members(vouchers) == casts.Keys
    requires TreeAt(SeedState(boxes, records, memberCount), key).Some?
    ensures Writes(SeedWrites(boxes, records, memberCount, casts, vouchers), key)
  {
    var u, ws := SeedState(boxes, records, memberCount), SeedWrites(boxes, records, memberCount, casts, vouchers);
    var value := TreeAt(u, key).value;
    if BoxDomain(key) {
      BoxWritten(boxes, records, memberCount, key);
    } else if key.CastCountKey? {
      CastsAreCounted(boxes, key.voucher);
      VoucherCounted(boxes, casts, key.voucher);
      EmittedBy(vouchers, CastWriter(casts));
      assert key.voucher in Members(vouchers);
      assert Insert(key, CastCount(casts[key.voucher])) in CastWriter(casts)(key.voucher);
    } else if key.LapsedKey? || key.IdentityKey? {
      RecordWritten(boxes, records, memberCount, casts, key);
    } else {
      assert key == NetworkKey;
    }
  }

  lemma VoucherCounted(boxes: seq<Live>, casts: map<Key, nat>, k: Key)
    requires Counted(boxes, casts) && Casts(boxes, k) > 0
    ensures k in casts
  {
    if k !in Movers(boxes) {
      NoMoverNoCasts(boxes, k);
    }
  }

  lemma BoxWritten(boxes: seq<Live>, records: seq<SeedRecordEntry>, memberCount: int, key: TreeKey)
    requires Seedable(boxes, records) && BoxDomain(key)
    requires TreeAt(SeedState(boxes, records, memberCount), key).Some?
    ensures exists w :: w in Emit(boxes, BoxWriter(RecordMap(records))) && w.key == key
  {
    var u := SeedState(boxes, records, memberCount);
    BoxMapHolds(boxes);
    var id := HeldIsEntry(u, key);
    var l :| l in boxes && l.id == id;
    var w := Insert(key, TreeAt(u, key).value);
    InsertedEntry(Entries(l.id, l.box, GrantIn(u.records, l.box)), w);
    EmittedBy(boxes, BoxWriter(RecordMap(records)));
    assert w in BoxWriter(RecordMap(records))(l);
  }

  lemma RecordWritten(
    boxes: seq<Live>, records: seq<SeedRecordEntry>, memberCount: int, casts: map<Key, nat>, key: TreeKey)
    requires Seedable(boxes, records) && Counted(boxes, casts) && (key.LapsedKey? || key.IdentityKey?)
    requires TreeAt(SeedState(boxes, records, memberCount), key).Some?
    ensures exists w :: w in Emit(records, RecordWriterOf(casts)) && w.key == key
  {
    var k := key.identity;
    RecordMapHolds(records);
    CastsAreCounted(boxes, k);
    var r := (k, RecordMap(records)[k]);
    var w := Insert(key, if key.IdentityKey? then IdentityValue(r.1) else IndexMarker);
    if key.LapsedKey? {
      VoucherCounted(boxes, casts, k);
    }
    EmittedBy(records, RecordWriterOf(casts));
    assert w in RecordWriterOf(casts)(r);
  }

  // ---------------------------------------------------------------------------
  // No key twice
  // ---------------------------------------------------------------------------

  /** Elements whose writes are apart, each its own once, emit no key twice. */
  lemma {:induction false} EmitOnce<T(!new)>(xs: seq<T>, f: T -> seq<TreeWrite>)
    requires forall x | x in xs :: KeysOnce(f(x))
    requires forall i, j, v, w | 0 <= i < j < |xs| && v in f(xs[i]) && w in f(xs[j]) :: v.key != w.key
    ensures KeysOnce(Emit(xs, f))
    decreases |xs|
  {
    if xs != [] {
      var rest := xs[1..];
      assert forall i | 0 <= i < |rest| :: rest[i] == xs[i + 1];
      EmitOnce(rest, f);
      EmittedBy(rest, f);
      forall v, w | v in f(xs[0]) && w in Emit(rest, f) ensures v.key != w.key {
        var x :| x in rest && w in f(x);
        var i :| 0 <= i < |rest| && rest[i] == x;
        assert xs[i + 1] == x;
      }
      JoinOnce(f(xs[0]), Emit(rest, f));
    }
  }

  lemma {:induction false} EmitTwice<T(!new)>(xs: seq<T>, f: T -> seq<TreeWrite>, i: nat, j: nat, v: TreeWrite,
    w: TreeWrite)
    requires i < j < |xs| && v in f(xs[i]) && w in f(xs[j]) && v.key == w.key
    ensures !KeysOnce(Emit(xs, f))
    decreases i
  {
    var rest := xs[1..];
    EmittedBy(rest, f);
    if i == 0 {
      assert xs[j] == rest[j - 1] && w in Emit(rest, f);
      Twice(f(xs[0]), Emit(rest, f), v, w);
    } else {
      EmitTwice(rest, f, i - 1, j - 1, v, w);
      if KeysOnce(f(xs[0]) + Emit(rest, f)) {
        PartOnce(f(xs[0]), Emit(rest, f));
      }
    }
  }

  lemma Twice(a: seq<TreeWrite>, b: seq<TreeWrite>, v: TreeWrite, w: TreeWrite)
    requires v in a && w in b && v.key == w.key
    ensures !KeysOnce(a + b)
  {
    var i :| 0 <= i < |a| && a[i] == v;
    var j :| 0 <= j < |b| && b[j] == w;
    assert (a + b)[i] == v && (a + b)[|a| + j] == w;
  }

  lemma PartOnce(a: seq<TreeWrite>, b: seq<TreeWrite>)
    requires KeysOnce(a + b)
    ensures KeysOnce(a) && KeysOnce(b)
  {
    assert forall i | 0 <= i < |a| :: (a + b)[i] == a[i];
    forall i, j | 0 <= i < j < |b| ensures b[i].key != b[j].key {
      assert (a + b)[|a| + i] == b[i] && (a + b)[|a| + j] == b[j];
    }
  }

  lemma BoxesOnce(boxes: seq<Live>, records: seq<SeedRecordEntry>)
    requires Seedable(boxes, records)
    ensures KeysOnce(Emit(boxes, BoxWriter(RecordMap(records))))
  {
    var f, all := BoxWriter(RecordMap(records)), BoxMap(boxes);
    BoxMapHolds(boxes);
    forall l | l in boxes ensures KeysOnce(f(l)) {
      EntriesOnce(l.id, l.box, GrantIn(RecordMap(records), l.box));
    }
    forall i, j, v, w | 0 <= i < j < |boxes| && v in f(boxes[i]) && w in f(boxes[j]) ensures v.key != w.key {
      var g, h := GrantIn(RecordMap(records), boxes[i].box), GrantIn(RecordMap(records), boxes[j].box);
      InsertedEntry(Entries(boxes[i].id, boxes[i].box, g), v);
      InsertedEntry(Entries(boxes[j].id, boxes[j].box, h), w);
      assert Ids(boxes)[i] != Ids(boxes)[j] && boxes[i] in boxes && boxes[j] in boxes;
      EntriesApart(all, boxes[i].id, boxes[j].id, g, h, (v.key, v.value), (w.key, w.value));
    }
    EmitOnce(boxes, f);
  }

  lemma CastsOnce(vouchers: seq<Key>, casts: map<Key, nat>)
    requires Distinct(vouchers)
    ensures KeysOnce(Emit(vouchers, CastWriter(casts)))
  {
    EmitOnce(vouchers, CastWriter(casts));
  }

  lemma RecordsOnce(records: seq<SeedRecordEntry>, casts: map<Key, nat>)
    requires Distinct(RecordKeys(records))
    ensures KeysOnce(Emit(records, RecordWriterOf(casts)))
  {
    var f := RecordWriterOf(casts);
    forall i, j, v, w | 0 <= i < j < |records| && v in f(records[i]) && w in f(records[j]) ensures v.key != w.key {
      assert RecordKeys(records)[i] != RecordKeys(records)[j];
    }
    EmitOnce(records, f);
  }

  predicate WithinDomain(ws: seq<TreeWrite>, p: TreeKey -> bool) {
    forall w | w in ws :: p(w.key)
  }

  predicate IsRecordKey(key: TreeKey) { key.IdentityKey? || key.LapsedKey? }

  predicate IsCastKey(key: TreeKey) { key.CastCountKey? }

  lemma Domains(boxes: seq<Live>, records: seq<SeedRecordEntry>, casts: map<Key, nat>, vouchers: seq<Key>)
    ensures WithinDomain(Emit(boxes, BoxWriter(RecordMap(records))), BoxDomain)
    ensures WithinDomain(Emit(vouchers, CastWriter(casts)), IsCastKey)
    ensures WithinDomain(Emit(records, RecordWriterOf(casts)), IsRecordKey)
  {
    EmittedBy(boxes, BoxWriter(RecordMap(records)));
    EmittedBy(vouchers, CastWriter(casts));
    EmittedBy(records, RecordWriterOf(casts));
    forall w | w in Emit(boxes, BoxWriter(RecordMap(records))) ensures BoxDomain(w.key) {
      var l :| l in boxes && w in BoxWriter(RecordMap(records))(l);
      var g := GrantIn(RecordMap(records), l.box);
      InsertedEntry(Entries(l.id, l.box, g), w);
      EntryNamesItsBox(l.id, l.box, g, (w.key, w.value));
    }
  }

  lemma SeedOnce(
    boxes: seq<Live>, records: seq<SeedRecordEntry>, memberCount: int, casts: map<Key, nat>, vouchers: seq<Key>)
    requires Seedable(boxes, records) && Distinct(vouchers)
    ensures KeysOnce(SeedWrites(boxes, records, memberCount, casts, vouchers))
  {
    BoxesOnce(boxes, records);
    CastsOnce(vouchers, casts);
    RecordsOnce(records, casts);
    Domains(boxes, records, casts, vouchers);
    var a, b := Emit(boxes, BoxWriter(RecordMap(records))), Emit(vouchers, CastWriter(casts));
    var c, d := Emit(records, RecordWriterOf(casts)), [Insert(NetworkKey, NetworkValue(memberCount))];
    FourOnce(a, b, c, d);
  }

  lemma FourOnce(a: seq<TreeWrite>, b: seq<TreeWrite>, c: seq<TreeWrite>, d: seq<TreeWrite>)
    requires KeysOnce(a) && KeysOnce(b) && KeysOnce(c) && KeysOnce(d)
    requires WithinDomain(a, BoxDomain) && WithinDomain(b, IsCastKey)
    requires WithinDomain(c, IsRecordKey) && WithinDomain(d, IsNetworkKey)
    ensures KeysOnce(a + b + c + d)
  {
    JoinOnce(a, b);
    JoinOnce(a + b, c);
    JoinOnce(a + b + c, d);
  }

  /** A seed that names something twice writes a key twice. */
  lemma OnceIsSeedable(
    boxes: seq<Live>, records: seq<SeedRecordEntry>, memberCount: int, casts: map<Key, nat>, vouchers: seq<Key>)
    requires BondsRecorded(boxes, RecordMap(records))
    requires KeysOnce(SeedWrites(boxes, records, memberCount, casts, vouchers))
    ensures Seedable(boxes, records)
  {
    var a, b := Emit(boxes, BoxWriter(RecordMap(records))), Emit(vouchers, CastWriter(casts));
    var c, d := Emit(records, RecordWriterOf(casts)), [Insert(NetworkKey, NetworkValue(memberCount))];
    PartOnce(a + b + c, d);
    PartOnce(a + b, c);
    PartOnce(a, b);
    IdsOnce(boxes, RecordMap(records));
    PairsAreOnce(boxes, RecordMap(records));
    forall i, j | 0 <= i < j < |records| ensures RecordKeys(records)[i] != RecordKeys(records)[j] {
      if records[i].0 == records[j].0 {
        EmitTwice(records, RecordWriterOf(casts), i, j, Insert(IdentityKey(records[i].0), IdentityValue(records[i].1)),
          Insert(IdentityKey(records[j].0), IdentityValue(records[j].1)));
      }
    }
  }

  lemma IdsOnce(boxes: seq<Live>, records: Records)
    requires KeysOnce(Emit(boxes, BoxWriter(records)))
    ensures Distinct(Ids(boxes))
  {
    forall i, j | 0 <= i < j < |boxes| ensures Ids(boxes)[i] != Ids(boxes)[j] {
      if boxes[i].id == boxes[j].id {
        var v := Insert(BoxKey(boxes[i].id), BoxRecord(boxes[i].box));
        var w := Insert(BoxKey(boxes[j].id), BoxRecord(boxes[j].box));
        WritesItself(boxes[i], records);
        WritesItself(boxes[j], records);
        EmitTwice(boxes, BoxWriter(records), i, j, v, w);
      }
    }
  }

  lemma WritesItself(l: Live, records: Records)
    ensures Insert(BoxKey(l.id), BoxRecord(l.box)) in BoxWriter(records)(l)
    ensures l.box.Vouch? ==>
      Insert(VouchPairKey(l.box.voucherId, l.box.targetId), PairValue(l.id)) in BoxWriter(records)(l)
  {
    var es := Entries(l.id, l.box, GrantIn(records, l.box));
    assert es[0] == (BoxKey(l.id), BoxRecord(l.box));
    InsertedEntry(es, Insert(BoxKey(l.id), BoxRecord(l.box)));
    if l.box.Vouch? {
      assert es[1] == (VouchPairKey(l.box.voucherId, l.box.targetId), PairValue(l.id));
      InsertedEntry(es, Insert(VouchPairKey(l.box.voucherId, l.box.targetId), PairValue(l.id)));
    }
  }

  lemma PairsAreOnce(boxes: seq<Live>, records: Records)
    requires KeysOnce(Emit(boxes, BoxWriter(records))) && Distinct(Ids(boxes))
    ensures PairsOnce(BoxMap(boxes))
  {
    var all := BoxMap(boxes);
    BoxMapHolds(boxes);
    forall i, j, v, t | PairBox(all, v, t, i) && PairBox(all, v, t, j) ensures i == j {
      var a :| 0 <= a < |boxes| && boxes[a].id == i;
      var b :| 0 <= b < |boxes| && boxes[b].id == j;
      assert boxes[a] in boxes && boxes[b] in boxes;
      WritesItself(boxes[a], records);
      WritesItself(boxes[b], records);
      if a < b {
        EmitTwice(boxes, BoxWriter(records), a, b, Insert(VouchPairKey(v, t), PairValue(i)),
          Insert(VouchPairKey(v, t), PairValue(j)));
      } else if b < a {
        EmitTwice(boxes, BoxWriter(records), b, a, Insert(VouchPairKey(v, t), PairValue(j)),
          Insert(VouchPairKey(v, t), PairValue(i)));
      }
    }
  }

  // ---------------------------------------------------------------------------
  // Into the empty tree
  // ---------------------------------------------------------------------------

  ghost predicate SeededWith(tree: AuthTree, done: seq<TreeWrite>) {
    && (forall key :: key in tree <==> Writes(done, key))
    && forall w | w in done :: w.Insert? && w.key in tree && tree[w.key] == w.value
  }

  lemma {:induction false} InsertsSeed(tree: AuthTree, done: seq<TreeWrite>, rest: seq<TreeWrite>)
    requires SeededWith(tree, done) && KeysOnce(done + rest) && forall w | w in rest :: w.Insert?
    ensures PerformAll(tree, rest).Some? && SeededWith(PerformAll(tree, rest).value, done + rest)
    decreases |rest|
  {
    if rest == [] {
      assert done + rest == done;
    } else {
      var w := rest[0];
      FreshKey(done, rest);
      var next := tree[w.key := w.value];
      forall key ensures key in next <==> Writes(done + [w], key) {
        WritesSnoc(done, w, key);
      }
      assert forall x | x in done :: x.key != w.key;
      assert done + [w] + rest[1..] == done + rest;
      InsertsSeed(next, done + [w], rest[1..]);
    }
  }

  /** Right inserts of distinct keys, none missed, leave the empty tree the state's own. */
  lemma SeedRepresents(u: State, ws: seq<TreeWrite>)
    requires KeysOnce(ws) && (forall w | w in ws :: RightSeed(u, w))
    requires forall key :: TreeAt(u, key).Some? ==> Writes(ws, key)
    ensures PerformAll(map[], ws).Some? && Represents(PerformAll(map[], ws).value, u)
  {
    assert [] + ws == ws;
    InsertsSeed(map[], [], ws);
    var tree := PerformAll(map[], ws).value;
    forall key ensures HoldsAt(tree, u, key) {
      if key in tree {
        var w :| w in ws && w.key == key;
        assert RightSeed(u, w);
      }
    }
  }

  lemma SeedLeaves(
    boxes: seq<Live>, records: seq<SeedRecordEntry>, memberCount: int, casts: map<Key, nat>, vouchers: seq<Key>,
    ws: seq<TreeWrite>)
    requires Seedable(boxes, records) && Counted(boxes, casts) && Members(vouchers) == casts.Keys
    requires KeysOnce(ws) && multiset(ws) == multiset(SeedWrites(boxes, records, memberCount, casts, vouchers))
    ensures var u := SeedState(boxes, records, memberCount);
      PerformAll(map[], ws).Some? && Represents(PerformAll(map[], ws).value, u)
  {
    var u, all := SeedState(boxes, records, memberCount), SeedWrites(boxes, records, memberCount, casts, vouchers);
    SameWrites(ws, all);
    forall w | w in ws ensures RightSeed(u, w) {
      AllRight(boxes, records, memberCount, casts, vouchers, w);
    }
    forall key | TreeAt(u, key).Some? ensures Writes(ws, key) {
      NoneMissed(boxes, records, memberCount, casts, vouchers, key);
      var w :| w in all && w.key == key;
      assert w in ws;
    }
    SeedRepresents(u, ws);
  }

  lemma SameWrites(ws: seq<TreeWrite>, all: seq<TreeWrite>)
    requires multiset(ws) == multiset(all)
    ensures forall w :: w in ws <==> w in all
  {
    forall w ensures w in ws <==> w in all {
      assert w in multiset(ws) <==> w in multiset(all);
    }
  }

  // ---------------------------------------------------------------------------
  // seedTreeWrites
  // ---------------------------------------------------------------------------

  lemma {:induction false} CastsSnoc(boxes: seq<Live>, l: Live, k: Key)
    ensures Casts(boxes + [l], k) == Casts(boxes, k) + if l.box.Vouch? && l.box.voucherId == k then 1 else 0
    decreases |boxes|
  {
    if boxes == [] {
      assert boxes + [l] == [l] && [l][1..] == [];
    } else {
      assert (boxes + [l])[1..] == boxes[1..] + [l];
      CastsSnoc(boxes[1..], l, k);
    }
  }

  /** A vouch adds to its voucher's count. */
  function CastsWith(casts: map<Key, nat>, b: Box): map<Key, nat> {
    if !b.Vouch? then casts
    else casts[b.voucherId := (if b.voucherId in casts then casts[b.voucherId] else 0) + 1]
  }

  lemma CountedSnoc(boxes: seq<Live>, l: Live, before: map<Key, nat>, after: map<Key, nat>)
    requires Counted(boxes, before) && after == CastsWith(before, l.box)
    ensures Counted(boxes + [l], after)
  {
    assert forall x :: x in boxes + [l] <==> x in boxes || x == l;
    if l.box.Vouch? {
      assert l in boxes + [l];
      if l.box.voucherId !in before {
        NoMoverNoCasts(boxes, l.box.voucherId);
      }
    }
    forall k | k in after ensures after[k] == Casts(boxes + [l], k) > 0 {
      CastsSnoc(boxes, l, k);
    }
  }

  /** The boxes' writes and the vouchers' counts: none for a bond whose invitee holds no record. */
  method SeedBoxes(boxes: seq<Live>, records: Records) returns (r: Option<(seq<TreeWrite>, map<Key, nat>)>)
    ensures r.Some? <==> BondsRecorded(boxes, records)
    ensures r.Some? ==> r.value.0 == Emit(boxes, BoxWriter(records)) && Counted(boxes, r.value.1)
  {
    var ws: seq<TreeWrite>, casts: map<Key, nat> := [], map[];
    for i := 0 to |boxes|
      invariant BondsRecorded(boxes[..i], records)
      invariant ws == Emit(boxes[..i], BoxWriter(records)) && Counted(boxes[..i], casts)
    {
      var l := boxes[i];
      if l.box.Bond? && l.box.inviteePublicKey !in records {
        assert l in boxes;
        return None;
      }
      assert boxes[..i + 1] == boxes[..i] + [l];
      EmitSnoc(boxes[..i], l, BoxWriter(records));
      CountedSnoc(boxes[..i], l, casts, CastsWith(casts, l.box));
      ws := ws + BoxWriter(records)(l);
      casts := CastsWith(casts, l.box);
    }
    assert boxes[..|boxes|] == boxes;
    r := Some((ws, casts));
  }

  /** No key takes two writes. */
  method WritesApart(ws: seq<TreeWrite>) returns (apart: bool)
    ensures apart <==> KeysOnce(ws)
  {
    var seen: set<TreeKey> := {};
    for i := 0 to |ws|
      invariant forall j, k | 0 <= j < k < i :: ws[j].key != ws[k].key
      invariant forall key :: key in seen <==> exists j :: 0 <= j < i && ws[j].key == key
    {
      if ws[i].key in seen {
        return false;
      }
      seen := seen + {ws[i].key};
    }
    return true;
  }

  /**
   * The genesis writes: refused exactly for a bond whose invitee holds no record and for a seed that names a box, an
   * identity or a vouched pair twice; else inserts of distinct keys in key order, which leave the empty tree the
   * genesis state's own.
   */
  method SeedTreeWrites(
    boxes: seq<Live>, records: seq<SeedRecordEntry>, memberCount: int, rank: TreeKey -> nat)
    returns (r: Option<seq<TreeWrite>>)
    ensures r.Some? <==> Seedable(boxes, records)
    ensures r.Some? ==> InOrder(rank, r.value) && KeysOnce(r.value) && forall w | w in r.value :: w.Insert?
    ensures r.Some? ==>
      var u := SeedState(boxes, records, memberCount);
      PerformAll(map[], r.value).Some? && Represents(PerformAll(map[], r.value).value, u)
  {
    var boxed := SeedBoxes(boxes, RecordMap(records));
    if boxed.None? {
      return None;
    }
    var casts := boxed.value.1;
    var vouchers := ListOf(casts.Keys);
    var counts := EmitAll(vouchers, CastWriter(casts));
    var recorded := EmitAll(records, RecordWriterOf(casts));
    var ws := boxed.value.0 + counts + recorded + [Insert(NetworkKey, NetworkValue(memberCount))];
    var apart := WritesApart(ws);
    if !apart {
      if Seedable(boxes, records) {
        SeedOnce(boxes, records, memberCount, casts, vouchers);
      }
      return None;
    }
    OnceIsSeedable(boxes, records, memberCount, casts, vouchers);
    var out := Ordered(rank, ws);
    ReorderedOnce(ws, out);
    SeedLeaves(boxes, records, memberCount, casts, vouchers, out);
    SameWrites(out, ws);
    forall w | w in out ensures w.Insert? {
      AllRight(boxes, records, memberCount, casts, vouchers, w);
    }
    r := Some(out);
  }
}
