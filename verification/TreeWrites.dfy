/** A block's writes to the tree, netted from its effects, and the proof that they keep the tree right. */
module TreeWrites {
  import opened Wrappers
  import opened Sums
  import opened Ledger
  import opened Engine
  import opened Applying
  import opened Coinbase
  import opened Queries
  import opened Invariant
  import opened Effects
  import opened Tree

  // ---------------------------------------------------------------------------
  // Boxes
  // ---------------------------------------------------------------------------

  /** A bond's due height: its invitee's grant. */
  function GrantIn(records: Records, b: Box): int {
    if b.Bond? && b.inviteePublicKey in records then records[b.inviteePublicKey].invitedAtBlock else 0
  }

  function Removes(es: seq<(TreeKey, TreeValue)>): (ws: seq<TreeWrite>)
    ensures |ws| == |es|
    ensures forall i | 0 <= i < |es| :: ws[i] == Remove(es[i].0)
  {
    if es == [] then [] else [Remove(es[0].0)] + Removes(es[1..])
  }

  function Inserts(es: seq<(TreeKey, TreeValue)>): (ws: seq<TreeWrite>)
    ensures |ws| == |es|
    ensures forall i | 0 <= i < |es| :: ws[i] == Insert(es[i].0, es[i].1)
  {
    if es == [] then [] else [Insert(es[0].0, es[0].1)] + Inserts(es[1..])
  }

  function SpentWrites(s: State, spent: seq<Live>): seq<TreeWrite> {
    if spent == [] then []
    else Removes(Entries(spent[0].id, spent[0].box, GrantIn(s.records, spent[0].box))) + SpentWrites(s, spent[1..])
  }

  function CreatedWrites(created: seq<Live>, height: int): seq<TreeWrite> {
    if created == [] then []
    else Inserts(Entries(created[0].id, created[0].box, height)) + CreatedWrites(created[1..], height)
  }

  predicate BoxDomain(key: TreeKey) {
    || key.BoxKey? || key.KarmaOfKey? || key.CreditOfKey? || key.EscrowOfKey? || key.EscrowDueKey?
    || key.BondDueKey? || key.VouchPairKey? || key.AccrualOfKey? || key.TypeKey?
  }

  ghost predicate PairsOnce(boxes: Boxes) {
    forall i, j, v, t | PairBox(boxes, v, t, i) && PairBox(boxes, v, t, j) :: i == j
  }

  /** What a block keeps that the indexes rest on. */
  ghost predicate Indexable(s: State, u: State, height: int) {
    && PairsOnce(s.boxes)
    && PairsOnce(u.boxes)
    && (forall i, j, v, t | PairBox(s.boxes, v, t, i) && i !in u.boxes && PairBox(u.boxes, v, t, j) :: j in s.boxes)
    && (forall id | id in s.boxes && id in u.boxes :: u.boxes[id] == s.boxes[id])
    && (forall id | id in s.boxes && s.boxes[id].Bond? :: s.boxes[id].inviteePublicKey in s.records)
    && (forall id | id in u.boxes && u.boxes[id].Bond? :: u.boxes[id].inviteePublicKey in u.records)
    && (forall id | id in s.boxes && id in u.boxes && s.boxes[id].Bond? ::
          u.records[s.boxes[id].inviteePublicKey].invitedAtBlock
              == s.records[s.boxes[id].inviteePublicKey].invitedAtBlock)
    && (forall id | id in u.boxes && id !in s.boxes && u.boxes[id].Bond? ::
          u.records[u.boxes[id].inviteePublicKey].invitedAtBlock == height)
  }

  /** An entry is what its state's tree holds. */
  lemma EntryHeld(s: State, id: BoxId, e: (TreeKey, TreeValue))
    requires id in s.boxes && PairsOnce(s.boxes)
    requires s.boxes[id].Bond? ==> s.boxes[id].inviteePublicKey in s.records
    requires e in Entries(id, s.boxes[id], GrantIn(s.records, s.boxes[id]))
    ensures TreeAt(s, e.0) == Some(e.1) && BoxDomain(e.0)
  {
    var b := s.boxes[id];
    if b.Vouch? {
      assert PairBox(s.boxes, b.voucherId, b.targetId, id);
    }
  }

  /** A key with a value is some box's entry. */
  lemma HeldIsEntry(s: State, key: TreeKey) returns (id: BoxId)
    requires BoxDomain(key) && TreeAt(s, key).Some?
    ensures id in s.boxes && (key, TreeAt(s, key).value) in Entries(id, s.boxes[id], GrantIn(s.records, s.boxes[id]))
  {
    match key
    case BoxKey(i) => id := i;
    case KarmaOfKey(_, i) => id := i;
    case CreditOfKey(_, i) => id := i;
    case EscrowOfKey(_, i) => id := i;
    case EscrowDueKey(_, i) => id := i;
    case BondDueKey(_, i) => id := i;
    case AccrualOfKey(_, i) => id := i;
    case TypeKey(_, i) => id := i;
    case VouchPairKey(voucher, target) =>
      assert exists i :: PairBox(s.boxes, voucher, target, i);
      id :| PairBox(s.boxes, voucher, target, id) && TreeAt(s, key) == Some(PairValue(id));
  }

  /** The id a key carries, or none for a pair's. */
  function IdIn(key: TreeKey): Option<BoxId> {
    match key
    case BoxKey(id) => Some(id)
    case KarmaOfKey(_, id) => Some(id)
    case CreditOfKey(_, id) => Some(id)
    case EscrowOfKey(_, id) => Some(id)
    case EscrowDueKey(_, id) => Some(id)
    case BondDueKey(_, id) => Some(id)
    case AccrualOfKey(_, id) => Some(id)
    case TypeKey(_, id) => Some(id)
    case _ => None
  }

  lemma EntryNamesItsBox(id: BoxId, b: Box, grant: int, e: (TreeKey, TreeValue))
    requires e in Entries(id, b, grant)
    ensures BoxDomain(e.0)
    ensures IdIn(e.0) == Some(id) || (b.Vouch? && e.0 == VouchPairKey(b.voucherId, b.targetId) && e.1 == PairValue(id))
  {
  }

  /** A spent box's entries are all gone. */
  lemma SpentEntryGone(s: State, u: State, height: int, id: BoxId, e: (TreeKey, TreeValue))
    requires Indexable(s, u, height) && id in s.boxes && id !in u.boxes
    requires e in Entries(id, s.boxes[id], GrantIn(s.records, s.boxes[id]))
    ensures TreeAt(u, e.0).None?
  {
    var b := s.boxes[id];
    EntryNamesItsBox(id, b, GrantIn(s.records, b), e);
    if IdIn(e.0) != Some(id) {
      forall j ensures !PairBox(u.boxes, b.voucherId, b.targetId, j) {
        if PairBox(u.boxes, b.voucherId, b.targetId, j) {
          PairStays(s, u, height, b.voucherId, b.targetId, id, j);
        }
      }
    }
  }

  lemma PairStays(s: State, u: State, height: int, v: Key, t: Key, i: BoxId, j: BoxId)
    requires Indexable(s, u, height) && PairBox(s.boxes, v, t, i) && PairBox(u.boxes, v, t, j)
    ensures i == j
  {
    if i in u.boxes {
      assert PairBox(u.boxes, v, t, i);
    } else {
      assert j in s.boxes && PairBox(s.boxes, v, t, j);
    }
  }

  /** A created box's entries were not there before. */
  lemma CreatedEntryNew(s: State, u: State, height: int, id: BoxId, e: (TreeKey, TreeValue))
    requires Indexable(s, u, height) && id in u.boxes && id !in s.boxes
    requires e in Entries(id, u.boxes[id], height)
    ensures TreeAt(s, e.0).None? && TreeAt(u, e.0) == Some(e.1) && BoxDomain(e.0)
  {
    var b := u.boxes[id];
    assert Entries(id, b, height) == Entries(id, b, GrantIn(u.records, b));
    EntryHeld(u, id, e);
    EntryNamesItsBox(id, b, height, e);
    if IdIn(e.0) != Some(id) {
      forall j ensures !PairBox(s.boxes, b.voucherId, b.targetId, j) {
        if PairBox(s.boxes, b.voucherId, b.targetId, j) {
          PairStays(s, u, height, b.voucherId, b.targetId, j, id);
        }
      }
    }
  }

  /** A lasting box's entries are the same before and after. */
  lemma LastingEntry(s: State, u: State, height: int, id: BoxId)
    requires Indexable(s, u, height) && id in s.boxes && id in u.boxes
    ensures Entries(id, u.boxes[id], GrantIn(u.records, u.boxes[id]))
      == Entries(id, s.boxes[id], GrantIn(s.records, s.boxes[id]))
  {
  }

  // ---------------------------------------------------------------------------
  // The box section
  // ---------------------------------------------------------------------------

  ghost predicate SpentList(s: State, u: State, spent: seq<Live>) {
    && LiveList(s.boxes, spent)
    && forall id :: id in IdSet(spent) <==> id in s.boxes && id !in u.boxes
  }

  ghost predicate CreatedList(s: State, u: State, created: seq<Live>) {
    && LiveList(u.boxes, created)
    && forall id :: id in IdSet(created) <==> id in u.boxes && id !in s.boxes
  }

  ghost predicate IsRemove(s: State, spent: seq<Live>, w: TreeWrite) {
    exists l, e :: l in spent && e in Entries(l.id, l.box, GrantIn(s.records, l.box)) && w == Remove(e.0)
  }

  ghost predicate IsInsert(created: seq<Live>, height: int, w: TreeWrite) {
    exists l, e :: l in created && e in Entries(l.id, l.box, height) && w == Insert(e.0, e.1)
  }

  lemma {:induction false} SpentWritesAre(s: State, spent: seq<Live>)
    ensures forall w | w in SpentWrites(s, spent) :: IsRemove(s, spent, w)
    ensures forall l, e | l in spent && e in Entries(l.id, l.box, GrantIn(s.records, l.box)) ::
      Remove(e.0) in SpentWrites(s, spent)
  {
    if spent != [] {
      var es := Entries(spent[0].id, spent[0].box, GrantIn(s.records, spent[0].box));
      SpentWritesAre(s, spent[1..]);
      forall w | w in SpentWrites(s, spent) ensures IsRemove(s, spent, w) {
        if w in Removes(es) {
          var i :| 0 <= i < |es| && Removes(es)[i] == w;
          assert es[i] in es && spent[0] in spent;
        } else {
          var l, e :| l in spent[1..] && e in Entries(l.id, l.box, GrantIn(s.records, l.box)) && w == Remove(e.0);
          assert l in spent;
        }
      }
      forall l, e | l in spent && e in Entries(l.id, l.box, GrantIn(s.records, l.box))
          ensures Remove(e.0) in SpentWrites(s, spent) {
        if l == spent[0] {
          var i :| 0 <= i < |es| && es[i] == e;
          assert Removes(es)[i] == Remove(e.0);
        }
      }
    }
  }

  lemma {:induction false} CreatedWritesAre(created: seq<Live>, height: int)
    ensures forall w | w in CreatedWrites(created, height) :: IsInsert(created, height, w)
    ensures forall l, e | l in created && e in Entries(l.id, l.box, height) ::
      Insert(e.0, e.1) in CreatedWrites(created, height)
  {
    if created != [] {
      var es := Entries(created[0].id, created[0].box, height);
      CreatedWritesAre(created[1..], height);
      forall w | w in CreatedWrites(created, height) ensures IsInsert(created, height, w) {
        if w in Inserts(es) {
          var i :| 0 <= i < |es| && Inserts(es)[i] == w;
          assert es[i] in es && created[0] in created;
        } else {
          var l, e :| l in created[1..] && e in Entries(l.id, l.box, height) && w == Insert(e.0, e.1);
          assert l in created;
        }
      }
      forall l, e | l in created && e in Entries(l.id, l.box, height)
          ensures Insert(e.0, e.1) in CreatedWrites(created, height) {
        if l == created[0] {
          var i :| 0 <= i < |es| && es[i] == e;
          assert Inserts(es)[i] == Insert(e.0, e.1);
        }
      }
    }
  }

  // Keys once: two entries share a key only where they are one box's one entry.

  lemma EntriesApart(boxes: Boxes, i: BoxId, j: BoxId, g: int, h: int, e: (TreeKey, TreeValue), f: (TreeKey, TreeValue))
    requires PairsOnce(boxes) && i in boxes && j in boxes && i != j
    requires e in Entries(i, boxes[i], g) && f in Entries(j, boxes[j], h)
    ensures e.0 != f.0
  {
    EntryNamesItsBox(i, boxes[i], g, e);
    EntryNamesItsBox(j, boxes[j], h, f);
    if e.0 == f.0 && IdIn(e.0).None? {
      assert PairBox(boxes, boxes[i].voucherId, boxes[i].targetId, i);
      assert PairBox(boxes, boxes[i].voucherId, boxes[i].targetId, j);
    }
  }

  lemma EntriesOnce(id: BoxId, b: Box, g: int)
    ensures KeysOnce(Removes(Entries(id, b, g))) && KeysOnce(Inserts(Entries(id, b, g)))
  {
    var es := Entries(id, b, g);
    EntryKeysOnce(id, b, g);
    KeysCarryOver(es);
  }

  lemma EntryKeysOnce(id: BoxId, b: Box, g: int)
    ensures var es := Entries(id, b, g); forall i, j | 0 <= i < j < |es| :: es[i].0 != es[j].0
  {
    assert |IndexEntries(id, b, g)| <= 2;
  }

  lemma KeysCarryOver(es: seq<(TreeKey, TreeValue)>)
    requires forall i, j | 0 <= i < j < |es| :: es[i].0 != es[j].0
    ensures KeysOnce(Removes(es)) && KeysOnce(Inserts(es))
  {
  }

  lemma JoinOnce(a: seq<TreeWrite>, b: seq<TreeWrite>)
    requires KeysOnce(a) && KeysOnce(b) && forall v, w | v in a && w in b :: v.key != w.key
    ensures KeysOnce(a + b)
  {
    var c := a + b;
    forall i, j | 0 <= i < j < |c| ensures c[i].key != c[j].key {
      if i < |a| && j >= |a| {
        assert c[i] in a && c[j] in b;
      }
    }
  }

  lemma LiveTail(boxes: Boxes, ls: seq<Live>)
    requires ls != [] && LiveList(boxes, ls)
    ensures LiveList(boxes, ls[1..]) && ls[0].id in boxes && boxes[ls[0].id] == ls[0].box
    ensures forall l | l in ls[1..] :: l.id != ls[0].id
  {
    assert Ids(ls)[1..] == Ids(ls[1..]);
    DistinctTail(Ids(ls));
    assert ls[0] in ls;
    forall l | l in ls[1..] ensures l.id != ls[0].id {
      var i :| 0 <= i < |ls[1..]| && ls[1..][i] == l;
      assert Ids(ls)[i + 1] == l.id && Ids(ls)[0] == ls[0].id;
    }
  }

  lemma {:induction false} SpentOnce(s: State, spent: seq<Live>)
    requires LiveList(s.boxes, spent) && PairsOnce(s.boxes)
    ensures KeysOnce(SpentWrites(s, spent))
  {
    if spent != [] {
      var l := spent[0];
      var a := Removes(Entries(l.id, l.box, GrantIn(s.records, l.box)));
      var b := SpentWrites(s, spent[1..]);
      LiveTail(s.boxes, spent);
      SpentOnce(s, spent[1..]);
      SpentWritesAre(s, spent[1..]);
      EntriesOnce(l.id, l.box, GrantIn(s.records, l.box));
      forall v, w | v in a && w in b ensures v.key != w.key {
        var i :| 0 <= i < |a| && a[i] == v;
        var m, f :| m in spent[1..] && f in Entries(m.id, m.box, GrantIn(s.records, m.box)) && w == Remove(f.0);
        EntriesApart(s.boxes, l.id, m.id, GrantIn(s.records, l.box), GrantIn(s.records, m.box),
          Entries(l.id, l.box, GrantIn(s.records, l.box))[i], f);
      }
      JoinOnce(a, b);
    }
  }

  lemma {:induction false} CreatedOnce(boxes: Boxes, created: seq<Live>, height: int)
    requires LiveList(boxes, created) && PairsOnce(boxes)
    ensures KeysOnce(CreatedWrites(created, height))
  {
    if created != [] {
      var l := created[0];
      var a := Inserts(Entries(l.id, l.box, height));
      var b := CreatedWrites(created[1..], height);
      LiveTail(boxes, created);
      CreatedOnce(boxes, created[1..], height);
      CreatedWritesAre(created[1..], height);
      EntriesOnce(l.id, l.box, height);
      forall v, w | v in a && w in b ensures v.key != w.key {
        var i :| 0 <= i < |a| && a[i] == v;
        var m, f :| m in created[1..] && f in Entries(m.id, m.box, height) && w == Insert(f.0, f.1);
        EntriesApart(boxes, l.id, m.id, height, height, Entries(l.id, l.box, height)[i], f);
      }
      JoinOnce(a, b);
    }
  }

  lemma SpentWriteRight(s: State, u: State, height: int, spent: seq<Live>, w: TreeWrite)
    requires Indexable(s, u, height) && SpentList(s, u, spent) && w in SpentWrites(s, spent)
    ensures BoxDomain(w.key) && Right(w, TreeAt(s, w.key), TreeAt(u, w.key))
  {
    SpentWritesAre(s, spent);
    var l, e :| l in spent && e in Entries(l.id, l.box, GrantIn(s.records, l.box)) && w == Remove(e.0);
    assert l.id in IdSet(spent);
    EntryHeld(s, l.id, e);
    SpentEntryGone(s, u, height, l.id, e);
  }

  lemma CreatedWriteRight(s: State, u: State, height: int, created: seq<Live>, w: TreeWrite)
    requires Indexable(s, u, height) && CreatedList(s, u, created) && w in CreatedWrites(created, height)
    ensures BoxDomain(w.key) && Right(w, TreeAt(s, w.key), TreeAt(u, w.key))
  {
    CreatedWritesAre(created, height);
    var l, e :| l in created && e in Entries(l.id, l.box, height) && w == Insert(e.0, e.1);
    assert l.id in IdSet(created);
    CreatedEntryNew(s, u, height, l.id, e);
  }

  lemma SpentEntryWritten(s: State, u: State, spent: seq<Live>, id: BoxId, e: (TreeKey, TreeValue))
    requires SpentList(s, u, spent) && id in s.boxes && id !in u.boxes
    requires e in Entries(id, s.boxes[id], GrantIn(s.records, s.boxes[id]))
    ensures Writes(SpentWrites(s, spent), e.0)
  {
    SpentWritesAre(s, spent);
    assert id in IdSet(spent);
    var l :| l in spent && l.id == id;
    assert Remove(e.0) in SpentWrites(s, spent) && Remove(e.0).key == e.0;
  }

  lemma CreatedEntryWritten(s: State, u: State, height: int, created: seq<Live>, id: BoxId, e: (TreeKey, TreeValue))
    requires Indexable(s, u, height) && CreatedList(s, u, created) && id in u.boxes && id !in s.boxes
    requires e in Entries(id, u.boxes[id], GrantIn(u.records, u.boxes[id]))
    ensures Writes(CreatedWrites(created, height), e.0)
  {
    CreatedWritesAre(created, height);
    assert id in IdSet(created);
    var l :| l in created && l.id == id;
    assert Entries(id, u.boxes[id], height) == Entries(id, u.boxes[id], GrantIn(u.records, u.boxes[id]));
    assert Insert(e.0, e.1) in CreatedWrites(created, height) && Insert(e.0, e.1).key == e.0;
  }

  /** A key the box writes leave alone is a lasting box's, or no box's. */
  lemma UnwrittenKeySame(s: State, u: State, height: int, spent: seq<Live>, created: seq<Live>, key: TreeKey)
    requires Indexable(s, u, height) && SpentList(s, u, spent) && CreatedList(s, u, created) && BoxDomain(key)
    requires !Writes(SpentWrites(s, spent), key) && !Writes(CreatedWrites(created, height), key)
    ensures TreeAt(u, key) == TreeAt(s, key)
  {
    if TreeAt(s, key).Some? {
      var id := HeldIsEntry(s, key);
      var e := (key, TreeAt(s, key).value);
      if id !in u.boxes {
        SpentEntryWritten(s, u, spent, id, e);
      } else {
        LastingEntry(s, u, height, id);
        EntryHeld(u, id, e);
      }
    } else if TreeAt(u, key).Some? {
      var id := HeldIsEntry(u, key);
      var e := (key, TreeAt(u, key).value);
      if id !in s.boxes {
        CreatedEntryWritten(s, u, height, created, id, e);
      } else {
        LastingEntry(s, u, height, id);
        EntryHeld(s, id, e);
      }
    }
  }

  /** The boxes and every index entry, netted: each insert hits an absent key, each removal a present one. */
  lemma BoxSection(s: State, u: State, height: int, spent: seq<Live>, created: seq<Live>)
    requires Indexable(s, u, height) && SpentList(s, u, spent) && CreatedList(s, u, created)
    ensures Section(s, u, SpentWrites(s, spent) + CreatedWrites(created, height), BoxDomain)
  {
    var a, b := SpentWrites(s, spent), CreatedWrites(created, height);
    SpentOnce(s, spent);
    CreatedOnce(u.boxes, created, height);
    forall v, w | v in a && w in b ensures v.key != w.key {
      SpentWriteRight(s, u, height, spent, v);
      CreatedWriteRight(s, u, height, created, w);
      SpentWritesAre(s, spent);
      CreatedWritesAre(created, height);
    }
    JoinOnce(a, b);
    forall w | w in a + b ensures BoxDomain(w.key) && Right(w, TreeAt(s, w.key), TreeAt(u, w.key)) {
      if w in a {
        SpentWriteRight(s, u, height, spent, w);
      } else {
        CreatedWriteRight(s, u, height, created, w);
      }
    }
    forall key | BoxDomain(key) ensures Settled(s, u, a + b, key) {
      if !Writes(a + b, key) {
        assert forall w | w in a || w in b :: w in a + b;
        UnwrittenKeySame(s, u, height, spent, created, key);
      }
    }
  }
}
