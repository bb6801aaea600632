/** The bound on a transaction is tight: with MAXOPBLOCKS 10 and one index level, a write of the largest
    piece that filewrite passes to writei can log 10 blocks (xv6-lab-mmap/file.c:148-157). */
module FullLog {
  import opened Common
  import opened FileState
  import opened FileSystem

  /** Blocks of two bytes, one direct block, two bits to a bitmap block: bitmap blocks 7..12, inodes in
      block 13, data from 14 on. */
  const Narrow: Geo := Geo(1, 3, 2, false, 25, 14, 2, 0, 8, 13, 5)

  /** Files 1 to 4 have one block each, so that no two of the free blocks 15, 16, 18, 20, 22 and 24 share a
      bitmap block. File 0 holds one byte, in block 14. */
  ghost function Crowded(): State {
    State(seq(25, b => b < 14 || b in {14, 17, 19, 21, 23}),
          seq(25, b => if b == 14 then Bytes([5, 0]) else Zeroed),
          map[0 := Inode(1, [14, 0]), 1 := Inode(1, [17, 0]), 2 := Inode(1, [19, 0]), 3 := Inode(1, [21, 0]), 4 := Inode(1, [23, 0])],
          map[14 := (0, Direct(0)), 17 := (1, Direct(0)), 19 := (2, Direct(0)), 21 := (3, Direct(0)), 23 := (4, Direct(0))])
  }

  lemma NarrowOk()
    ensures Narrow.Ok()
  {
  }

  function Place(i: nat, sl: Slot): nat { if sl != Direct(0) then 0 else if i == 0 then 14 else 15 + 2 * i }

  lemma CrowdedSlot(i: nat, sl: Slot)
    requires i < 5 && SlotOk(Narrow, sl)
    ensures Addr(Narrow, Crowded().blocks, Crowded().inodes[i], sl) == Place(i, sl)
  {
  }

  lemma CrowdedOwned()
    ensures Shape(Narrow, Crowded()) && Owned(Narrow, Crowded(), NoneDead)
  {
    var s := Crowded();
    NarrowOk();
    assert Shape(Narrow, s);
    forall i, sl | i in s.inodes && SlotOk(Narrow, sl) ensures KindOk(Narrow, s, i, sl) && SlotOwned(Narrow, s, NoneDead, i, sl) {
      CrowdedSlot(i, sl);
      hide Addr;
    }
    forall b | b in s.owner ensures OwnerOk(Narrow, s, NoneDead, b) {
      CrowdedSlot(s.owner[b].0, s.owner[b].1);
      hide Addr;
    }
  }

  lemma CrowdedOk()
    ensures Inv(Narrow, Crowded()) && Content(Narrow, Crowded(), 0) == [5]
  {
    CrowdedOwned();
    hide Owned;
    forall i | i in Crowded().inodes ensures NoHoles(Narrow, Crowded(), i) { CrowdedSlot(i, Direct(0)); }
  }

  method CrowdedDisk() returns (d: Disk)
    ensures fresh(d) && d.g == Narrow && d.Valid() && d.S() == Crowded() && d.logged == {}
  {
    hide Inv;
    CrowdedOk();
    NarrowOk();
    d := new Disk(Narrow, {});
    d.bitmap := seq(25, b => b < 14 || b in {14, 17, 19, 21, 23});
    d.blocks := seq(25, b => if b == 14 then Bytes([5, 0]) else Zeroed);
    d.inodes := map[0 := Inode(1, [14, 0]), 1 := Inode(1, [17, 0]), 2 := Inode(1, [19, 0]), 3 := Inode(1, [21, 0]), 4 := Inode(1, [23, 0])];
    d.owner := Crowded().owner;
  }

  // ---------------------------------------------------------------- the blocks that must be logged

  predicate WasFree(a: int) { a == 15 || a == 16 || a == 18 || a == 20 || a == 22 || a == 24 }

  /** What the write leaves: seven bytes in four data blocks and an index block. */
  ghost predicate After(t: State, l: set<int>) {
    && Inv(Narrow, t) && Covered(Narrow, Crowded(), t, 0, {}, l, {}) && 0 in t.inodes
    && Content(Narrow, t, 0) == [5, 1, 1, 1, 1, 1, 1] && 13 in l
  }

  lemma Elsewhere(t: State, l: set<int>, sl: Slot, j: nat)
    requires After(t, l) && SlotOk(Narrow, sl) && Addr(Narrow, t.blocks, t.inodes[0], sl) != 0 && 1 <= j <= 4
    ensures Addr(Narrow, t.blocks, t.inodes[0], sl) != 15 + 2 * j
  {
    hide Owned, NoHoles, Content;
    assert t.inodes[j] == Crowded().inodes[j];
    if Addr(Narrow, t.blocks, t.inodes[0], sl) == 15 + 2 * j { SlotsApart(Narrow, t, NoneDead, 0, sl, j, Direct(0)); }
  }

  /** A block in a slot of file 0 was free, or it is block 14. */
  lemma InSlot(t: State, l: set<int>, sl: Slot)
    requires After(t, l) && SlotOk(Narrow, sl) && Addr(Narrow, t.blocks, t.inodes[0], sl) != 0
    ensures var a := Addr(Narrow, t.blocks, t.inodes[0], sl);
      && (a == 14 || WasFree(a)) && (WasFree(a) ==> a in l && a / 2 in l)
      && (a == 14 && t.blocks[14] != Bytes([5, 0]) ==> 14 in l)
  {
    var a := Addr(Narrow, t.blocks, t.inodes[0], sl);
    assert 14 <= a < 25 by {
      hide Addr, Covered, Content;
      assert SlotOwned(Narrow, t, NoneDead, 0, sl) && OwnerOk(Narrow, t, NoneDead, a);
    }
    Elsewhere(t, l, sl, 1);
    Elsewhere(t, l, sl, 2);
    Elsewhere(t, l, sl, 3);
    Elsewhere(t, l, sl, 4);
    hide Inv, Addr, Content;
    assert WasFree(a) ==> !Crowded().bitmap[a];
  }

  lemma IndexLogged(t: State, l: set<int>)
    requires After(t, l) && Addr(Narrow, t.blocks, t.inodes[0], Ind) != 0
    ensures Addr(Narrow, t.blocks, t.inodes[0], Ind) in l
  {
    InSlot(t, l, Ind);
    hide Addr, Covered, Content;
    assert KindOk(Narrow, t, 0, Ind);
  }

  lemma DataLogged(t: State, l: set<int>, k: nat)
    requires After(t, l) && k < 4
    ensures Addr(Narrow, t.blocks, t.inodes[0], DataSlot(Narrow, k)) != 0
    ensures Addr(Narrow, t.blocks, t.inodes[0], DataSlot(Narrow, k)) in l
  {
    DataChanged(t, l, k);
    hide After, Addr;
    assert SlotOk(Narrow, DataSlot(Narrow, k));
    InSlot(t, l, DataSlot(Narrow, k));
  }

  /** Each data block of the file has a byte that block 14 did not have there. */
  lemma DataChanged(t: State, l: set<int>, k: nat)
    requires After(t, l) && k < 4
    ensures var a := Addr(Narrow, t.blocks, t.inodes[0], DataSlot(Narrow, k)); 0 < a && (a == 14 ==> t.blocks[14] != Bytes([5, 0]))
  {
    hide Covered, Addr, Owned, NoHoles, ByteAt;
    var x := if k == 0 then 1 else 2 * k;
    assert x / 2 == k;
    assert t.inodes[0].size == 7 && Content(Narrow, t, 0)[x] == 1;
    ByteIs(t, x);
    ReadMapped(Narrow, t, 0, x);
    hide Inv, Content;
    if Addr(Narrow, t.blocks, t.inodes[0], DataSlot(Narrow, k)) == 14 && t.blocks[14] == Bytes([5, 0]) { NotOld(t, k, x); }
  }

  lemma NotOld(t: State, k: nat, x: nat)
    requires 0 in t.inodes && x / 2 == k && |t.blocks| == 25 && t.blocks[14] == Bytes([5, 0])
    requires Addr(Narrow, t.blocks, t.inodes[0], DataSlot(Narrow, k)) == 14
    ensures ByteAt(Narrow, t, 0, x) != 1
  {
    hide Addr;
  }

  lemma ByteIs(t: State, x: nat)
    requires 0 in t.inodes && x < t.inodes[0].size
    ensures Content(Narrow, t, 0)[x] == ByteAt(Narrow, t, 0, x)
  {
  }

  // ---------------------------------------------------------------- counting them

  predicate Apart(q: seq<int>) { forall i, j :: 0 <= i < j < |q| ==> q[i] != q[j] }

  lemma {:induction false} AtLeast(q: seq<int>, l: set<int>)
    requires Apart(q) && forall i :: 0 <= i < |q| ==> q[i] in l
    ensures |l| >= |q|
    decreases |q|
  {
    if q != [] {
      AtLeast(q[1..], l - {q[0]});
      assert l == l - {q[0]} + {q[0]};
    }
  }

  /** The slots of file 0 after the write. */
  function Nth(k: nat): Slot { if k == 0 then Direct(0) else if k < 4 then IndAt(k - 1) else Ind }

  ghost function Blocks(t: State): seq<int>
    requires 0 in t.inodes
  {
    seq(5, k requires 0 <= k => Addr(Narrow, t.blocks, t.inodes[0], Nth(k)))
  }

  lemma NthLogged(t: State, l: set<int>, k: nat)
    requires After(t, l) && k < 5
    ensures var a := Addr(Narrow, t.blocks, t.inodes[0], Nth(k)); a != 0 && a in l && (a == 14 || (WasFree(a) && a / 2 in l))
  {
    DataLogged(t, l, if k < 4 then k else 1);
    if k < 4 {
      assert Nth(k) == DataSlot(Narrow, k);
    } else {
      IndexLogged(t, l);
    }
    hide After, Addr;
    InSlot(t, l, Nth(k));
  }

  /** The five blocks of the file differ and are logged. */
  lemma BlocksApart(t: State, l: set<int>)
    requires After(t, l)
    ensures Apart(Blocks(t))
  {
    forall k | 0 <= k < 5 ensures Blocks(t)[k] != 0 && SlotOk(Narrow, Nth(k)) { NthLogged(t, l, k); hide After, Addr; }
    forall k, m | 0 <= k < m < 5 ensures Blocks(t)[k] != Blocks(t)[m] { SlotsDiffer(t, l, Nth(k), Nth(m)); hide After, Addr; }
  }

  lemma SlotsDiffer(t: State, l: set<int>, sl: Slot, sl': Slot)
    requires After(t, l) && SlotOk(Narrow, sl) && SlotOk(Narrow, sl') && sl != sl' && Addr(Narrow, t.blocks, t.inodes[0], sl) != 0
    ensures Addr(Narrow, t.blocks, t.inodes[0], sl) != Addr(Narrow, t.blocks, t.inodes[0], sl')
  {
    hide Addr, Owned, Covered, Content, NoHoles;
    if Addr(Narrow, t.blocks, t.inodes[0], sl) == Addr(Narrow, t.blocks, t.inodes[0], sl') { SlotsApart(Narrow, t, NoneDead, 0, sl, 0, sl'); }
  }

  /** Five blocks of which one may be block 14, the bits of the others, and the inode. */
  lemma Ten(q: seq<int>, l: set<int>)
    requires |q| == 5 && Apart(q) && 13 in l
    requires forall k :: 0 <= k < 5 ==> q[k] in l && (q[k] == 14 || (WasFree(q[k]) && q[k] / 2 in l))
    ensures |l| >= 10
  {
    var high, low := set x | x in l && x >= 14, set x | x in l && x < 14;
    AtLeast(q, high);
    var z := if q[0] == 14 then 0 else if q[1] == 14 then 1 else if q[2] == 14 then 2 else if q[3] == 14 then 3 else 4;
    assert forall k :: 0 <= k < 5 && k != z ==> q[k] != 14;
    var bits := seq(5, k requires 0 <= k < 5 => if k == z then 13 else q[k] / 2);
    AtLeast(bits, low);
    assert l == high + low;
  }

  lemma LogsTen(t: State, l: set<int>)
    requires After(t, l)
    ensures |l| >= 10
  {
    BlocksApart(t, l);
    forall k | 0 <= k < 5 ensures Blocks(t)[k] in l && (Blocks(t)[k] == 14 || (WasFree(Blocks(t)[k]) && Blocks(t)[k] / 2 in l)) {
      NthLogged(t, l, k);
      hide After, Addr;
    }
    Ten(Blocks(t), l);
  }

  /** The write cannot fill the disk, because that would log 12 blocks. */
  lemma NotFilled(t: State, l: set<int>, loose: set<int>)
    requires Covered(Narrow, Crowded(), t, 0, {}, l, loose) && |l| <= 10
    ensures !Full(t.bitmap)
  {
    if Full(t.bitmap) {
      var q := [15, 16, 18, 20, 22, 24];
      forall k | 0 <= k < |q| ensures q[k] in l && q[k] / 2 in l { assert !Crowded().bitmap[q[k]] && Narrow.Bblock(q[k]) == q[k] / 2; }
      hide Covered, Full;
      AtLeast(q + seq(6, k requires 0 <= k < 6 => q[k] / 2), l);
    }
  }

  /** The largest piece with MAXOPBLOCKS 10 is three blocks; written across four, it logs ten blocks. */
  method LogsAllTen(d: Disk) returns (r: int)
    requires d.g == Narrow && d.Valid() && d.S() == Crowded() && d.logged == {}
    modifies d
    ensures d.Valid() && r == 6 == (10 - 4) / 2 * d.g.bsize && |d.logged| == 10
  {
    hide Inv, Content, Covered, Full, Owned, Shape, Unspilled, Replaced, After;
    CrowdedOk();
    var ok;
    ok, r := d.Writei(0, 1, [1, 1, 1, 1, 1, 1], 6, 3);
    NotLoose(Narrow, d.S(), 0, 1, r);
    assert d.logged - {} == d.logged;
    NotFilled(d.S(), d.logged, {});
    assert Content(Narrow, d.S(), 0) == [5, 1, 1, 1, 1, 1, 1];
    IsAfter(d.S(), d.logged);
    LogsTen(d.S(), d.logged);
  }

  lemma IsAfter(t: State, l: set<int>)
    requires Inv(Narrow, t) && Covered(Narrow, Crowded(), t, 0, {}, l, {}) && 0 in t.inodes
    requires Content(Narrow, t, 0) == [5, 1, 1, 1, 1, 1, 1] && 13 in l
    ensures After(t, l)
  {
  }
}
