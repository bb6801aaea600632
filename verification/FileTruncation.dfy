/** What itrunc keeps while it gives the blocks of a file back one by one
    (xv6-lab-filesystem/fs.c:428-479). */
module FileTruncation {
  import opened FileState

  /** s0 with some blocks of file i given back; the slots that held them are dead. */
  ghost predicate Truncating(g: Geo, s0: State, s: State, i: nat, dead: set<Slot>) {
    && Shape(g, s0) && Shape(g, s) && i in s.inodes && Owned(g, s, DeadIn(i, dead))
    && s.blocks == s0.blocks && s.inodes.Keys == s0.inodes.Keys
    && (forall j :: j in s0.inodes && j != i ==> s.inodes[j] == s0.inodes[j])
    && (forall b :: b in s.owner ==> b in s0.owner && s.owner[b] == s0.owner[b])
    && (forall b :: b in s0.owner && s0.owner[b].0 != i ==> b in s.owner)
  }

  /** The bitmap blocks with the bits of the blocks of file i. */
  ghost function BitmapBlocks(g: Geo, s: State, i: nat): set<int>
    requires g.bpb > 0
  {
    set b | b in s.owner && s.owner[b].0 == i :: g.Bblock(b)
  }

  /** Bits of blocks of file i were cleared, and exactly their bitmap blocks were logged. */
  ghost predicate FreesLogged(g: Geo, s0: State, i: nat, bm: seq<bool>, bm': seq<bool>, l: set<int>, l': set<int>) {
    && g.bpb > 0 && |bm'| == |bm| && l <= l' <= l + BitmapBlocks(g, s0, i)
    && forall b :: 0 <= b < |bm| && bm[b] && !bm'[b] ==> g.Bblock(b) in l'
  }

  lemma FreesNothing(g: Geo, s0: State, i: nat, bm: seq<bool>, l: set<int>)
    requires g.bpb > 0
    ensures FreesLogged(g, s0, i, bm, bm, l, l)
  {
  }

  lemma FreesTrans(g: Geo, s0: State, i: nat, a: seq<bool>, b: seq<bool>, c: seq<bool>, k: set<int>, l: set<int>, m: set<int>)
    requires FreesLogged(g, s0, i, a, b, k, l) && FreesLogged(g, s0, i, b, c, l, m)
    ensures FreesLogged(g, s0, i, a, c, k, m)
  {
    hide BitmapBlocks;
  }

  /** When all blocks of the file have been given back, the log holds exactly their bitmap blocks. */
  lemma FreedAll(g: Geo, s0: State, i: nat, bm: seq<bool>, l: set<int>, l': set<int>)
    requires Inv(g, s0) && FreesLogged(g, s0, i, s0.bitmap, bm, l, l')
    requires forall b :: 0 <= b < g.blocks ==> (bm[b] <==> s0.bitmap[b] && !(b in s0.owner && s0.owner[b].0 == i))
    ensures l' == l + BitmapBlocks(g, s0, i)
  {
    forall x | x in BitmapBlocks(g, s0, i) ensures x in l' {
      var b :| b in s0.owner && s0.owner[b].0 == i && g.Bblock(b) == x;
      assert OwnerOk(g, s0, NoneDead, b);
    }
  }

  function Freed(s: State, b: nat): State
    requires b < |s.bitmap|
  {
    s.(bitmap := s.bitmap[b := false], owner := s.owner - {b})
  }

  function Cleared(g: Geo, s: State, i: nat, top: Slot): State
    requires i in s.inodes && Index(g, top) < |s.inodes[i].addrs|
  {
    s.(inodes := s.inodes[i := s.inodes[i].(addrs := s.inodes[i].addrs[Index(g, top) := 0])])
  }

  function Child(p: Slot, j: nat): Slot {
    match p
    case DblAt(i) => DblAt2(i, j)
    case Dbl => DblAt(j)
    case _ => IndAt(j)
  }

  /** The slot of the inode under which a slot lies. */
  function Top(sl: Slot): Slot {
    match sl
    case IndAt(_) => Ind
    case DblAt(_) => Dbl
    case DblAt2(_, _) => Dbl
    case _ => sl
  }

  lemma TruncStart(g: Geo, s: State, i: nat)
    requires Inv(g, s) && i in s.inodes
    ensures Truncating(g, s, s, i, {})
  {
    hide Addr;
    forall j, sl | j in s.inodes && SlotOk(g, sl) ensures KindOk(g, s, j, sl) && SlotOwned(g, s, DeadIn(i, {}), j, sl) { KindAt(g, s, j, sl); }
    forall b | b in s.owner ensures OwnerOk(g, s, DeadIn(i, {}), b) { assert OwnerOk(g, s, NoneDead, b); }
  }

  /** bfree cannot panic: a slot that is not dead names an owned block, whose bit is set. */
  lemma FreeReady(g: Geo, s0: State, s: State, i: nat, sl: Slot, dead: set<Slot>)
    requires Truncating(g, s0, s, i, dead) && SlotOk(g, sl) && sl !in dead && Addr(g, s.blocks, s.inodes[i], sl) != 0
    ensures g.Ok()
    ensures var b := Addr(g, s.blocks, s.inodes[i], sl);
      b < |s.bitmap| && s.bitmap[b] && b in s.owner && s.owner[b] == (i, sl) && g.Bblock(b) in BitmapBlocks(g, s0, i)
  {
    hide Addr;
    assert KindOk(g, s, i, sl) && SlotOwned(g, s, DeadIn(i, dead), i, sl);
  }

  lemma FreeKeeps(g: Geo, s0: State, s: State, i: nat, sl: Slot, dead: set<Slot>)
    requires Truncating(g, s0, s, i, dead) && SlotOk(g, sl) && sl !in dead && Addr(g, s.blocks, s.inodes[i], sl) != 0
    requires Addr(g, s.blocks, s.inodes[i], sl) < |s.bitmap|
    ensures Truncating(g, s0, Freed(s, Addr(g, s.blocks, s.inodes[i], sl)), i, dead + {sl})
  {
    hide Addr;
    var a := Addr(g, s.blocks, s.inodes[i], sl);
    FreeReady(g, s0, s, i, sl, dead);
    var d, t, d' := DeadIn(i, dead), Freed(s, a), DeadIn(i, dead + {sl});
    assert Shape(g, t);
    forall j, x | j in t.inodes && SlotOk(g, x) ensures KindOk(g, t, j, x) && SlotOwned(g, t, d', j, x) {
      assert KindOk(g, s, j, x) && SlotOwned(g, s, d, j, x);
    }
    forall b | b in t.owner ensures OwnerOk(g, t, d', b) {
      assert OwnerOk(g, s, d, b);
    }
    assert OwnerOk(g, s, d, a);
    assert Owned(g, t, d');
  }

  /** Everything below a slot of the inode is dead or empty. */
  ghost predicate BelowDead(g: Geo, blocks: seq<Block>, ip: Inode, top: Slot, dead: set<Slot>) {
    forall x :: SlotOk(g, x) && Top(x) == top ==> x in dead || Addr(g, blocks, ip, x) == 0
  }

  lemma TopIndex(g: Geo, s0: State, s: State, i: nat, top: Slot, dead: set<Slot>)
    requires Truncating(g, s0, s, i, dead) && SlotOk(g, top) && InInode(top)
    ensures Index(g, top) < |s.inodes[i].addrs| && s.inodes[i].addrs[Index(g, top)] == Addr(g, s.blocks, s.inodes[i], top)
  {
  }

  /** Clearing a number in the inode empties everything below it and nothing else. */
  lemma AddrCleared(g: Geo, s: State, i: nat, top: Slot, x: Slot)
    requires Shape(g, s) && i in s.inodes && SlotOk(g, top) && InInode(top) && SlotOk(g, x) && Index(g, top) < |s.inodes[i].addrs|
    ensures var t := Cleared(g, s, i, top);
      Addr(g, t.blocks, t.inodes[i], x) == if Top(x) == top then 0 else Addr(g, s.blocks, s.inodes[i], x)
  {
  }

  lemma ClearKeeps(g: Geo, s0: State, s: State, i: nat, top: Slot, dead: set<Slot>)
    requires Truncating(g, s0, s, i, dead) && SlotOk(g, top) && InInode(top) && BelowDead(g, s.blocks, s.inodes[i], top, dead)
    requires Index(g, top) < |s.inodes[i].addrs|
    ensures Truncating(g, s0, Cleared(g, s, i, top), i, dead)
  {
    hide Addr;
    var t, d := Cleared(g, s, i, top), DeadIn(i, dead);
    assert Shape(g, t);
    forall j, x | j in t.inodes && SlotOk(g, x) ensures KindOk(g, t, j, x) && SlotOwned(g, t, d, j, x) {
      assert KindOk(g, s, j, x) && SlotOwned(g, s, d, j, x);
      AddrCleared(g, s, i, top, x);
    }
    forall b | b in t.owner ensures OwnerOk(g, t, d, b) {
      assert OwnerOk(g, s, d, b);
      AddrCleared(g, s, i, top, s.owner[b].1);
    }
    assert Owned(g, t, d);
  }

  /** The first n entries of the index block in slot p are dead or empty, and nothing else died. */
  ghost predicate ChildrenDead(g: Geo, blocks: seq<Block>, ip: Inode, p: Slot, n: nat, dead: set<Slot>, dead': set<Slot>) {
    && dead <= dead'
    && (forall x :: x in dead' ==> x in dead || (exists j :: 0 <= j < n && x == Child(p, j)))
    && forall j :: 0 <= j < n ==> Child(p, j) in dead' || Addr(g, blocks, ip, Child(p, j)) == 0
  }

  lemma ChildRead(g: Geo, s0: State, s: State, i: nat, p: Slot, j: nat, dead: set<Slot>)
    requires Truncating(g, s0, s, i, dead) && SlotOk(g, p) && IsIndex(p) && j < g.ni
    requires Addr(g, s.blocks, s.inodes[i], p) != 0
    ensures SlotOk(g, Child(p, j)) && !InInode(Child(p, j)) && Parent(Child(p, j)) == p
    ensures var up := Addr(g, s.blocks, s.inodes[i], p);
      up < |s.blocks| && Word(s.blocks[up], j) == Addr(g, s.blocks, s.inodes[i], Child(p, j))
  {
    assert KindOk(g, s, i, p);
  }

  lemma ChildrenNext(g: Geo, blocks: seq<Block>, ip: Inode, p: Slot, n: nat, dead: set<Slot>, d: set<Slot>, d': set<Slot>)
    requires ChildrenDead(g, blocks, ip, p, n, dead, d)
    requires d' == d + {Child(p, n)} || (d' == d && Addr(g, blocks, ip, Child(p, n)) == 0)
    ensures ChildrenDead(g, blocks, ip, p, n + 1, dead, d')
  {
    hide Addr;
    forall x | x in d' ensures x in dead || exists j :: 0 <= j < n + 1 && x == Child(p, j) {
      assert x in d ==> x in dead || exists j :: 0 <= j < n && x == Child(p, j);
    }
  }

  /** The first n direct numbers are 0, and only direct slots died. */
  ghost predicate DirectsDone(ip: Inode, n: nat, dead: set<Slot>) {
    && (forall m :: 0 <= m < n ==> AddrIn(ip, m) == 0)
    && forall x :: x in dead ==> x.Direct? && x.i < n
  }

  lemma DirectNext(ip: Inode, ip': Inode, n: nat, dead: set<Slot>, dead': set<Slot>)
    requires DirectsDone(ip, n, dead) && n < |ip.addrs| && ip'.addrs == ip.addrs[n := 0] && dead' <= dead + {Direct(n)}
    ensures DirectsDone(ip', n + 1, dead')
  {
    forall m | 0 <= m < n ensures AddrIn(ip', m) == AddrIn(ip, m) { }
  }

  lemma DirectBelow(g: Geo, blocks: seq<Block>, ip: Inode, n: nat, dead: set<Slot>)
    requires Direct(n) in dead
    ensures BelowDead(g, blocks, ip, Direct(n), dead)
  {
  }

  lemma IndBelow(g: Geo, blocks: seq<Block>, ip: Inode, dead: set<Slot>, d: set<Slot>, d': set<Slot>)
    requires ChildrenDead(g, blocks, ip, Ind, g.ni, dead, d) && d' == d + {Ind}
    ensures BelowDead(g, blocks, ip, Ind, d')
  {
    hide Addr;
    forall x | SlotOk(g, x) && Top(x) == Ind ensures x in d' || Addr(g, blocks, ip, x) == 0 {
      assert x.IndAt? ==> x == Child(Ind, x.j);
    }
  }

  /** Nothing below the double-indirect number has died. */
  ghost predicate DblAlive(dead: set<Slot>) { forall x :: x in dead ==> Top(x) != Dbl }

  /** The tops other than the cleared one keep what they had. */
  lemma ClearedEmpty(g: Geo, s: State, t: State, i: nat, top: Slot)
    requires Shape(g, s) && i in s.inodes && SlotOk(g, top) && InInode(top) && Index(g, top) < |s.inodes[i].addrs| && t == Cleared(g, s, i, top)
    ensures BelowDead(g, t.blocks, t.inodes[i], top, {})
    ensures forall o :: BelowDead(g, s.blocks, s.inodes[i], o, {}) ==> BelowDead(g, t.blocks, t.inodes[i], o, {})
    ensures !top.Direct? ==> forall m :: 0 <= m < g.nd ==> AddrIn(t.inodes[i], m) == AddrIn(s.inodes[i], m)
  {
    hide Addr;
    forall x | SlotOk(g, x)
      ensures Addr(g, t.blocks, t.inodes[i], x) == if Top(x) == top then 0 else Addr(g, s.blocks, s.inodes[i], x)
    { AddrCleared(g, s, i, top, x); }
  }

  /** An empty number has nothing below it. */
  lemma EmptyTop(g: Geo, blocks: seq<Block>, ip: Inode, top: Slot)
    requires (top.Ind? || top.Dbl?) && Addr(g, blocks, ip, top) == 0
    ensures BelowDead(g, blocks, ip, top, {})
  {
  }

  function Major(x: Slot): nat { if x.DblAt? || x.DblAt2? then x.j else 0 }

  /** The first n entries of the double-indirect block, and all below them, are dead or empty. */
  ghost predicate DblUpto(g: Geo, blocks: seq<Block>, ip: Inode, n: nat, dead: set<Slot>) {
    && (forall x :: x in dead && Top(x) == Dbl ==> !x.Dbl? && Major(x) < n)
    && forall x :: SlotOk(g, x) && Top(x) == Dbl && !x.Dbl? && Major(x) < n ==> x in dead || Addr(g, blocks, ip, x) == 0
  }

  lemma DblSkip(g: Geo, blocks: seq<Block>, ip: Inode, n: nat, dead: set<Slot>)
    requires DblUpto(g, blocks, ip, n, dead) && Addr(g, blocks, ip, DblAt(n)) == 0
    ensures DblUpto(g, blocks, ip, n + 1, dead)
  {
  }

  lemma DblNext(g: Geo, blocks: seq<Block>, ip: Inode, n: nat, dead: set<Slot>, d: set<Slot>, d': set<Slot>)
    requires DblUpto(g, blocks, ip, n, dead) && ChildrenDead(g, blocks, ip, DblAt(n), g.ni, dead, d) && d' == d + {DblAt(n)}
    ensures DblUpto(g, blocks, ip, n + 1, d')
  {
    hide Addr;
    forall x | SlotOk(g, x) && Top(x) == Dbl && !x.Dbl? && Major(x) < n + 1 ensures x in d' || Addr(g, blocks, ip, x) == 0 {
      assert x.DblAt2? && x.j == n ==> x == Child(DblAt(n), x.k);
    }
  }

  lemma DblBelow(g: Geo, blocks: seq<Block>, ip: Inode, dead: set<Slot>)
    requires DblUpto(g, blocks, ip, g.ni, dead)
    ensures BelowDead(g, blocks, ip, Dbl, dead + {Dbl})
  {
    hide Addr;
  }

  ghost predicate NoDirects(g: Geo, ip: Inode) {
    forall m :: 0 <= m < g.nd ==> AddrIn(ip, m) == 0
  }

  lemma DirectStart(ip: Inode)
    ensures DirectsDone(ip, 0, {})
  {
  }

  lemma DirectFresh(ip: Inode, n: nat, dead: set<Slot>)
    requires DirectsDone(ip, n, dead)
    ensures Direct(n) !in dead
  {
  }

  lemma OnlyDirects(g: Geo, ip: Inode, dead: set<Slot>)
    requires DirectsDone(ip, g.nd, dead)
    ensures NoDirects(g, ip) && DblAlive(dead) && Ind !in dead && forall j :: 0 <= j < g.ni ==> Child(Ind, j) !in dead
  {
  }

  lemma IndFresh(g: Geo, blocks: seq<Block>, ip: Inode, dead: set<Slot>, dead': set<Slot>)
    requires DblAlive(dead) && Ind !in dead && ChildrenDead(g, blocks, ip, Ind, g.ni, dead, dead')
    ensures DblAlive(dead' + {Ind}) && Ind !in dead'
  {
    hide Addr;
  }

  lemma DirectsKept(g: Geo, ip: Inode, ip': Inode)
    requires NoDirects(g, ip) && forall m :: 0 <= m < g.nd ==> AddrIn(ip', m) == AddrIn(ip, m)
    ensures NoDirects(g, ip')
  {
  }

  lemma TruncShape(g: Geo, s0: State, s: State, i: nat, dead: set<Slot>)
    requires Truncating(g, s0, s, i, dead)
    ensures Shape(g, s) && i in s.inodes && |s.inodes[i].addrs| == g.Naddrs() && s.blocks == s0.blocks
    ensures s.inodes.Keys == s0.inodes.Keys && forall j :: j in s0.inodes && j != i ==> s.inodes[j] == s0.inodes[j]
  {
    hide Owned;
  }

  lemma DblStart(g: Geo, blocks: seq<Block>, ip: Inode, dead: set<Slot>)
    requires DblAlive(dead)
    ensures DblUpto(g, blocks, ip, 0, dead)
  {
    hide Addr;
  }

  lemma DblFresh(g: Geo, blocks: seq<Block>, ip: Inode, n: nat, dead: set<Slot>)
    requires DblUpto(g, blocks, ip, n, dead)
    ensures DblAt(n) !in dead && Dbl !in dead && forall j :: 0 <= j < g.ni ==> Child(DblAt(n), j) !in dead
  {
    hide Addr;
    assert Top(Dbl) == Dbl && Top(DblAt(n)) == Dbl && forall j :: Top(Child(DblAt(n), j)) == Dbl;
  }

  lemma MidFresh(g: Geo, blocks: seq<Block>, ip: Inode, n: nat, dead: set<Slot>, dead': set<Slot>)
    requires DblAt(n) !in dead && ChildrenDead(g, blocks, ip, DblAt(n), g.ni, dead, dead')
    ensures DblAt(n) !in dead'
  {
    hide Addr;
  }

  /** The file without blocks and with size 0: the invariant holds again and the bits are right. */
  lemma TruncEnd(g: Geo, s0: State, s: State, i: nat, dead: set<Slot>, t: State)
    requires Inv(g, s0) && Truncating(g, s0, s, i, dead) && t == s.(inodes := s.inodes[i := s.inodes[i].(size := 0)])
    requires BelowDead(g, s.blocks, s.inodes[i], Ind, {}) && (g.dbl ==> BelowDead(g, s.blocks, s.inodes[i], Dbl, {}))
    requires NoDirects(g, s.inodes[i])
    ensures Inv(g, t)
    ensures forall sl :: SlotOk(g, sl) ==> Addr(g, t.blocks, t.inodes[i], sl) == 0
    ensures WithoutOwner(s0.owner, t.owner, i)
    ensures forall b :: 0 <= b < g.blocks ==> (t.bitmap[b] <==> s0.bitmap[b] && !(b in s0.owner && s0.owner[b].0 == i))
  {
    hide Addr;
    EmptySlots(g, s, t, i);
    EndOwned(g, s0, s, i, dead, t);
    hide Owned;
    forall j | j in t.inodes ensures NoHoles(g, t, j) {
      assert j != i ==> NoHoles(g, s0, j);
    }
  }

  lemma EndOwned(g: Geo, s0: State, s: State, i: nat, dead: set<Slot>, t: State)
    requires Inv(g, s0) && Truncating(g, s0, s, i, dead) && t == s.(inodes := s.inodes[i := s.inodes[i].(size := 0)])
    requires Shape(g, t) && forall sl :: SlotOk(g, sl) ==> Addr(g, t.blocks, t.inodes[i], sl) == 0
    ensures Owned(g, t, NoneDead)
    ensures WithoutOwner(s0.owner, t.owner, i)
    ensures forall b :: 0 <= b < g.blocks ==> (t.bitmap[b] <==> s0.bitmap[b] && !(b in s0.owner && s0.owner[b].0 == i))
  {
    hide Addr, NoHoles;
    forall j, sl | j in t.inodes && SlotOk(g, sl) ensures KindOk(g, t, j, sl) && SlotOwned(g, t, NoneDead, j, sl) {
      assert KindOk(g, s, j, sl) && SlotOwned(g, s, DeadIn(i, dead), j, sl);
    }
    forall b | b in t.owner ensures OwnerOk(g, t, NoneDead, b) && t.owner[b].0 != i {
      assert OwnerOk(g, s, DeadIn(i, dead), b);
      AddrSame(g, s.blocks, s.inodes[s.owner[b].0], t.inodes[s.owner[b].0], s.owner[b].1);
    }
    forall b | b in s0.owner ensures b >= g.meta { assert OwnerOk(g, s0, NoneDead, b); }
  }

  /** The history variable without the blocks of file i. */
  ghost predicate WithoutOwner(before: map<int, (nat, Slot)>, after: map<int, (nat, Slot)>, i: nat) {
    && (forall b :: b in after ==> b in before && after[b] == before[b] && after[b].0 != i)
    && forall b :: b in before && before[b].0 != i ==> b in after
  }

  lemma EmptySlots(g: Geo, s: State, t: State, i: nat)
    requires Shape(g, s) && i in s.inodes && t == s.(inodes := s.inodes[i := s.inodes[i].(size := 0)])
    requires BelowDead(g, s.blocks, s.inodes[i], Ind, {}) && (g.dbl ==> BelowDead(g, s.blocks, s.inodes[i], Dbl, {}))
    requires NoDirects(g, s.inodes[i])
    ensures Shape(g, t)
    ensures forall sl :: SlotOk(g, sl) ==> Addr(g, t.blocks, t.inodes[i], sl) == 0
  {
    forall sl | SlotOk(g, sl) ensures Addr(g, t.blocks, t.inodes[i], sl) == 0 {
      EmptySlot(g, s, i, sl);
      AddrSame(g, s.blocks, s.inodes[i], t.inodes[i], sl);
    }
  }

  lemma EmptySlot(g: Geo, s: State, i: nat, sl: Slot)
    requires i in s.inodes && SlotOk(g, sl) && BelowDead(g, s.blocks, s.inodes[i], Ind, {}) && (g.dbl ==> BelowDead(g, s.blocks, s.inodes[i], Dbl, {}))
    requires NoDirects(g, s.inodes[i])
    ensures Addr(g, s.blocks, s.inodes[i], sl) == 0
  {
    assert sl.Direct? || Top(sl) == Ind || Top(sl) == Dbl;
  }
}
