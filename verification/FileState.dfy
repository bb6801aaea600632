/** Inodes, their block trees and the free-block bitmap (xv6-lab-filesystem/fs.c, fs.h; the
    single-indirect form of xv6-lab-mmap/fs.c is the case without the double-indirect level). */
module FileState {
  import opened Common

  type byte = b: int | 0 <= b < 256

  /** Geometry: NDIRECT, NINDIRECT, BSIZE, whether there is a double-indirect block, the number of
      disk blocks, the first block after the metadata, and where bitmap and inode blocks lie. */
  datatype Geo = Geo(nd: nat, ni: nat, bsize: nat, dbl: bool, blocks: nat, meta: nat,
                     bpb: nat, bmapstart: nat, ipb: nat, inodestart: nat, ninodes: nat) {
    ghost predicate Ok() {
      && ni > 0 && bsize > 0 && bpb > 0 && ipb > 0 && 0 < meta <= blocks
      && (forall b :: 0 <= b < blocks ==> Bblock(b) < meta)
      && (forall i :: 0 <= i < ninodes ==> Iblock(i) < meta)
      && MaxFile() * bsize < 0x1_0000_0000
    }
    /** BBLOCK: the bitmap block with the bit of block b. */
    function Bblock(b: int): int requires bpb > 0 { b / bpb + bmapstart }
    /** IBLOCK: the block that stores inode i. */
    function Iblock(i: int): int requires ipb > 0 { i / ipb + inodestart }
    function MaxFile(): nat { nd + ni + if dbl then ni * ni else 0 }
    function Naddrs(): nat { nd + if dbl then 2 else 1 }
  }

  /** A block as the kernel last used it: zeroed, file bytes, or block numbers. */
  datatype Block = Zeroed | Bytes(data: seq<byte>) | Words(words: seq<nat>)

  datatype Inode = Inode(size: nat, addrs: seq<nat>)

  /** A place that can hold a block number. */
  datatype Slot = Direct(i: nat) | Ind | IndAt(j: nat) | Dbl | DblAt(j: nat) | DblAt2(j: nat, k: nat)

  /** owner is a history variable: which slot of which inode a block belongs to. */
  datatype State = State(bitmap: seq<bool>, blocks: seq<Block>, inodes: map<nat, Inode>, owner: map<int, (nat, Slot)>)

  predicate SlotOk(g: Geo, sl: Slot) {
    match sl
    case Direct(i) => i < g.nd
    case Ind => true
    case IndAt(j) => j < g.ni
    case Dbl => g.dbl
    case DblAt(j) => g.dbl && j < g.ni
    case DblAt2(j, k) => g.dbl && j < g.ni && k < g.ni
  }

  predicate IsIndex(sl: Slot) { sl.Ind? || sl.Dbl? || sl.DblAt? }

  /** The slot of the n-th block of a file. */
  function DataSlot(g: Geo, n: nat): Slot
    requires g.ni > 0
  {
    if n < g.nd then Direct(n)
    else if n - g.nd < g.ni then IndAt(n - g.nd)
    else DblAt2((n - g.nd - g.ni) / g.ni, (n - g.nd - g.ni) % g.ni)
  }

  function Word(b: Block, j: nat): nat { if b.Words? && j < |b.words| then b.words[j] else 0 }

  /** Entry j of the block with number a; no block, no entry. */
  function WordAt(blocks: seq<Block>, a: nat, j: nat): nat {
    if 0 < a < |blocks| then Word(blocks[a], j) else 0
  }

  function AddrIn(ip: Inode, n: nat): nat { if n < |ip.addrs| then ip.addrs[n] else 0 }

  /** The block number in a slot of an inode, 0 if none. */
  function Addr(g: Geo, blocks: seq<Block>, ip: Inode, sl: Slot): nat {
    match sl
    case Direct(i) => AddrIn(ip, i)
    case Ind => AddrIn(ip, g.nd)
    case IndAt(j) => WordAt(blocks, AddrIn(ip, g.nd), j)
    case Dbl => AddrIn(ip, g.nd + 1)
    case DblAt(j) => WordAt(blocks, AddrIn(ip, g.nd + 1), j)
    case DblAt2(j, k) => WordAt(blocks, WordAt(blocks, AddrIn(ip, g.nd + 1), j), k)
  }

  function BytesOf(g: Geo, b: Block): seq<byte> {
    if b.Bytes? then b.data else seq<byte>(g.bsize, _ => 0)
  }

  /** Byte x of file i. */
  function ByteAt(g: Geo, s: State, i: nat, x: nat): byte
    requires i in s.inodes && g.ni > 0 && g.bsize > 0
  {
    var a := Addr(g, s.blocks, s.inodes[i], DataSlot(g, x / g.bsize));
    if a < |s.blocks| && x % g.bsize < |BytesOf(g, s.blocks[a])| then BytesOf(g, s.blocks[a])[x % g.bsize] else 0
  }

  /** A file is a byte sequence. */
  function Content(g: Geo, s: State, i: nat): (c: seq<byte>)
    requires i in s.inodes && g.ni > 0 && g.bsize > 0
    ensures |c| == s.inodes[i].size
  {
    seq<byte>(s.inodes[i].size, x requires 0 <= x < s.inodes[i].size => ByteAt(g, s, i, x))
  }

  // ---------------------------------------------------------------- invariant

  ghost predicate Shape(g: Geo, s: State) {
    && g.Ok() && |s.bitmap| == g.blocks && |s.blocks| == g.blocks
    && forall i :: i in s.inodes ==> i < g.ninodes && |s.inodes[i].addrs| == g.Naddrs()
  }

  /** The block in a slot has the right kind of contents. */
  ghost predicate KindOk(g: Geo, s: State, i: nat, sl: Slot)
    requires Shape(g, s) && i in s.inodes
  {
    var a := Addr(g, s.blocks, s.inodes[i], sl);
    && a < g.blocks
    && (a != 0 && IsIndex(sl) ==> s.blocks[a].Zeroed? || (s.blocks[a].Words? && |s.blocks[a].words| == g.ni))
    && (a != 0 && !IsIndex(sl) ==> s.blocks[a].Zeroed? || (s.blocks[a].Bytes? && |s.blocks[a].data| == g.bsize))
  }

  /** Slots whose block was already given back while the file is being truncated. */
  datatype Dead = NoneDead | DeadIn(i: nat, slots: set<Slot>)
  predicate IsDead(d: Dead, i: nat, sl: Slot) { d.DeadIn? && d.i == i && sl in d.slots }

  ghost predicate SlotOwned(g: Geo, s: State, d: Dead, i: nat, sl: Slot)
    requires Shape(g, s) && i in s.inodes
  {
    var a := Addr(g, s.blocks, s.inodes[i], sl);
    a != 0 && !IsDead(d, i, sl) ==> a in s.owner && s.owner[a] == (i, sl)
  }

  ghost predicate OwnerOk(g: Geo, s: State, d: Dead, b: int)
    requires Shape(g, s) && b in s.owner
  {
    var (i, sl) := s.owner[b];
    && g.meta <= b < g.blocks && i in s.inodes && SlotOk(g, sl) && !IsDead(d, i, sl)
    && Addr(g, s.blocks, s.inodes[i], sl) == b
  }

  /** Each block belongs to one slot of one inode, and the bitmap knows exactly those blocks. */
  ghost predicate Owned(g: Geo, s: State, d: Dead)
    requires Shape(g, s)
  {
    && (forall i, sl :: i in s.inodes && SlotOk(g, sl) ==> KindOk(g, s, i, sl) && SlotOwned(g, s, d, i, sl))
    && (forall b :: b in s.owner ==> OwnerOk(g, s, d, b))
    && (forall b :: 0 <= b < g.blocks ==> (s.bitmap[b] <==> b < g.meta || b in s.owner))
  }

  /** No block below the size of a file is missing. */
  ghost predicate NoHoles(g: Geo, s: State, i: nat)
    requires Shape(g, s) && i in s.inodes
  {
    && s.inodes[i].size <= g.MaxFile() * g.bsize
    && forall n :: 0 <= n && n * g.bsize < s.inodes[i].size ==> Addr(g, s.blocks, s.inodes[i], DataSlot(g, n)) != 0
  }

  ghost predicate Inv(g: Geo, s: State) {
    && Shape(g, s) && Owned(g, s, NoneDead)
    && forall i :: i in s.inodes ==> NoHoles(g, s, i)
  }

  // ---------------------------------------------------------------- indices

  lemma DataSlotOk(g: Geo, n: nat)
    requires g.Ok() && n < g.MaxFile()
    ensures SlotOk(g, DataSlot(g, n)) && !IsIndex(DataSlot(g, n))
  {
    if n >= g.nd + g.ni {
      var m := n - g.nd - g.ni;
      DivBound(m, g.ni, g.ni);
    }
  }

  lemma DivBound(m: nat, d: nat, q: nat)
    requires d > 0 && m < q * d
    ensures m / d < q
  {
    assert m == m / d * d + m % d;
    MulStrict(q, m / d, d);
  }

  /** Different blocks of a file use different slots. */
  lemma DataSlotInjective(g: Geo, m: nat, n: nat)
    requires g.Ok() && DataSlot(g, m) == DataSlot(g, n)
    ensures m == n
  {
    if m >= g.nd + g.ni && n >= g.nd + g.ni {
      var x, y := m - g.nd - g.ni, n - g.nd - g.ni;
      assert x == x / g.ni * g.ni + x % g.ni;
      assert y == y / g.ni * g.ni + y % g.ni;
    }
  }

  /** Byte x of a file of legal size lies in one of its blocks. */
  lemma BlockOfByte(g: Geo, size: nat, x: nat)
    requires g.Ok() && size <= g.MaxFile() * g.bsize && x < size
    ensures x / g.bsize < g.MaxFile() && x / g.bsize * g.bsize <= x < size
  {
    DivBound(x, g.bsize, g.MaxFile());
    assert x == x / g.bsize * g.bsize + x % g.bsize;
  }

  // ---------------------------------------------------------------- attaching a block

  function Parent(sl: Slot): Slot {
    match sl
    case IndAt(_) => Ind
    case DblAt(_) => Dbl
    case DblAt2(j, _) => DblAt(j)
    case _ => sl
  }

  predicate InInode(sl: Slot) { sl.Direct? || sl.Ind? || sl.Dbl? }

  /** The index in addrs, or in the parent's block, where the slot keeps its number. */
  function Index(g: Geo, sl: Slot): nat {
    match sl
    case Direct(i) => i
    case Ind => g.nd
    case Dbl => g.nd + 1
    case IndAt(j) => j
    case DblAt(j) => j
    case DblAt2(_, k) => k
  }

  function PutWord(g: Geo, b: Block, j: nat, v: nat): Block {
    var w := if b.Words? then b.words else seq<nat>(g.ni, _ => 0);
    if j < |w| then Words(w[j := v]) else b
  }

  /** Store number v in a slot; the block that holds the slot must exist. */
  function SetSlot(g: Geo, s: State, i: nat, sl: Slot, v: nat): State
    requires i in s.inodes
  {
    if InInode(sl) then
      if Index(g, sl) < |s.inodes[i].addrs| then
        s.(inodes := s.inodes[i := s.inodes[i].(addrs := s.inodes[i].addrs[Index(g, sl) := v])])
      else s
    else
      var p := Addr(g, s.blocks, s.inodes[i], Parent(sl));
      if p < |s.blocks| then s.(blocks := s.blocks[p := PutWord(g, s.blocks[p], Index(g, sl), v)]) else s
  }

  /** balloc followed by storing the number: block b, zeroed, in an empty slot. */
  function Attach(g: Geo, s: State, i: nat, sl: Slot, b: nat): State
    requires i in s.inodes && b < |s.bitmap| && b < |s.blocks|
  {
    SetSlot(g, s.(bitmap := s.bitmap[b := true], blocks := s.blocks[b := Zeroed], owner := s.owner[b := (i, sl)]), i, sl, b)
  }

  ghost predicate Attachable(g: Geo, s: State, i: nat, sl: Slot, b: nat) {
    && Shape(g, s) && Owned(g, s, NoneDead) && i in s.inodes && SlotOk(g, sl)
    && g.meta <= b < g.blocks && !s.bitmap[b]
    && Addr(g, s.blocks, s.inodes[i], sl) == 0
    && (!InInode(sl) ==> Addr(g, s.blocks, s.inodes[i], Parent(sl)) != 0)
  }

  /** A free block is in no slot, and two slots never hold the same block. */
  lemma SlotsApart(g: Geo, s: State, d: Dead, i: nat, sl: Slot, i': nat, sl': Slot)
    requires Shape(g, s) && Owned(g, s, d) && i in s.inodes && i' in s.inodes && SlotOk(g, sl) && SlotOk(g, sl')
    requires !IsDead(d, i, sl) && !IsDead(d, i', sl')
    requires Addr(g, s.blocks, s.inodes[i], sl) == Addr(g, s.blocks, s.inodes[i'], sl') != 0
    ensures i == i' && sl == sl'
  {
    assert SlotOwned(g, s, d, i, sl) && SlotOwned(g, s, d, i', sl');
  }

  lemma FreeNotInSlot(g: Geo, s: State, b: nat, i: nat, sl: Slot)
    requires Shape(g, s) && Owned(g, s, NoneDead) && i in s.inodes && SlotOk(g, sl) && b < g.blocks && !s.bitmap[b]
    ensures Addr(g, s.blocks, s.inodes[i], sl) != b
  {
    assert SlotOwned(g, s, NoneDead, i, sl);
  }

  /** The blocks after an attach: b is zeroed, and the parent's block has one new word. */
  lemma AttachBlocks(g: Geo, s: State, i: nat, sl: Slot, b: nat)
    requires Attachable(g, s, i, sl, b)
    ensures InInode(sl) ==> Attach(g, s, i, sl, b).blocks == s.blocks[b := Zeroed]
    ensures !InInode(sl) ==>
      var p := Addr(g, s.blocks, s.inodes[i], Parent(sl));
      && 0 < p < g.blocks && p != b && (s.blocks[p].Zeroed? || (s.blocks[p].Words? && |s.blocks[p].words| == g.ni))
      && Attach(g, s, i, sl, b).blocks == s.blocks[b := Zeroed][p := PutWord(g, s.blocks[p], Index(g, sl), b)]
  {
    if !InInode(sl) {
      FreeNotInSlot(g, s, b, i, Parent(sl));
      assert KindOk(g, s, i, Parent(sl));
      if sl.DblAt2? { FreeNotInSlot(g, s, b, i, Dbl); }
      assert Addr(g, s.blocks[b := Zeroed], s.inodes[i], Parent(sl)) == Addr(g, s.blocks, s.inodes[i], Parent(sl));
    }
  }

  /** A word read through an index slot, after the attach. */
  lemma WordAfter(g: Geo, s: State, i: nat, sl: Slot, b: nat, i': nat, ix: Slot, j: nat)
    requires Attachable(g, s, i, sl, b) && i' in s.inodes && SlotOk(g, ix) && IsIndex(ix) && j < g.ni
    ensures var t := Attach(g, s, i, sl, b);
      var a := Addr(g, s.blocks, s.inodes[i'], ix);
      var a' := if (i', ix) == (i, sl) then b else a;
      WordAt(t.blocks, a', j) ==
        if !InInode(sl) && (i', ix) == (i, Parent(sl)) && j == Index(g, sl) then b else WordAt(s.blocks, a, j)
  {
    hide Owned, Attach, Addr;
    AttachBlocks(g, s, i, sl, b);
    var a := Addr(g, s.blocks, s.inodes[i'], ix);
    FreeNotInSlot(g, s, b, i', ix);
    if !InInode(sl) && a == Addr(g, s.blocks, s.inodes[i], Parent(sl)) {
      SlotsApart(g, s, NoneDead, i', ix, i, Parent(sl));
    }
  }

  /** After an attach exactly one slot holds something new. */
  lemma AddrAfter(g: Geo, s: State, i: nat, sl: Slot, b: nat, i': nat, sl': Slot)
    requires Attachable(g, s, i, sl, b) && i' in s.inodes && SlotOk(g, sl')
    ensures i' in Attach(g, s, i, sl, b).inodes
    ensures var t := Attach(g, s, i, sl, b);
      Addr(g, t.blocks, t.inodes[i'], sl') == if (i', sl') == (i, sl) then b else Addr(g, s.blocks, s.inodes[i'], sl')
    decreases sl'.DblAt2?
  {
    hide Owned, WordAt;
    AttachInode(g, s, i, sl, b, i');
    hide Attach;
    match sl'
    case IndAt(j) => WordAfter(g, s, i, sl, b, i', Ind, j);
    case DblAt(j) => WordAfter(g, s, i, sl, b, i', Dbl, j);
    case DblAt2(j, k) =>
      AddrAfter(g, s, i, sl, b, i', DblAt(j));
      WordAfter(g, s, i, sl, b, i', DblAt(j), k);
    case _ =>
  }

  lemma AttachInode(g: Geo, s: State, i: nat, sl: Slot, b: nat, i': nat)
    requires Attachable(g, s, i, sl, b) && i' in s.inodes
    ensures var t := Attach(g, s, i, sl, b);
      && t.inodes.Keys == s.inodes.Keys
      && forall m :: 0 <= m < g.Naddrs() ==>
           AddrIn(t.inodes[i'], m) == if i' == i && InInode(sl) && m == Index(g, sl) then b else AddrIn(s.inodes[i'], m)
  {
    hide Owned;
  }

  lemma AttachShape(g: Geo, s: State, i: nat, sl: Slot, b: nat)
    requires Attachable(g, s, i, sl, b)
    ensures var t := Attach(g, s, i, sl, b);
      && Shape(g, t) && t.bitmap == s.bitmap[b := true] && t.owner == s.owner[b := (i, sl)] && t.inodes.Keys == s.inodes.Keys
      && forall i' :: i' in s.inodes ==> t.inodes[i'].size == s.inodes[i'].size
  {
    hide Owned;
  }

  lemma AttachKind(g: Geo, s: State, i: nat, sl: Slot, b: nat, i': nat, sl': Slot)
    requires Attachable(g, s, i, sl, b) && i' in s.inodes && SlotOk(g, sl') && Shape(g, Attach(g, s, i, sl, b))
    requires i' in Attach(g, s, i, sl, b).inodes
    ensures KindOk(g, Attach(g, s, i, sl, b), i', sl')
  {
    hide Attach, Addr, Owned;
    AddrAfter(g, s, i, sl, b, i', sl');
    AttachBlocks(g, s, i, sl, b);
    KindAt(g, s, i', sl');
    FreeNotInSlot(g, s, b, i', sl');
    if !InInode(sl) && Addr(g, s.blocks, s.inodes[i'], sl') == Addr(g, s.blocks, s.inodes[i], Parent(sl)) {
      SlotsApart(g, s, NoneDead, i', sl', i, Parent(sl));
    }
  }

  lemma KindAt(g: Geo, s: State, i: nat, sl: Slot)
    requires Shape(g, s) && Owned(g, s, NoneDead) && i in s.inodes && SlotOk(g, sl)
    ensures KindOk(g, s, i, sl) && SlotOwned(g, s, NoneDead, i, sl)
  {
  }

  lemma AttachOwned(g: Geo, s: State, i: nat, sl: Slot, b: nat)
    requires Attachable(g, s, i, sl, b) && Shape(g, Attach(g, s, i, sl, b))
    ensures Owned(g, Attach(g, s, i, sl, b), NoneDead)
  {
    hide Attach, Addr;
    var t := Attach(g, s, i, sl, b);
    AttachShape(g, s, i, sl, b);
    assert b !in s.owner;
    forall i', sl' | i' in t.inodes && SlotOk(g, sl') ensures KindOk(g, t, i', sl') && SlotOwned(g, t, NoneDead, i', sl') {
      AttachKind(g, s, i, sl, b, i', sl');
      AddrAfter(g, s, i, sl, b, i', sl');
      assert SlotOwned(g, s, NoneDead, i', sl');
    }
    forall c | c in t.owner ensures OwnerOk(g, t, NoneDead, c) {
      if c == b { AddrAfter(g, s, i, sl, b, i, sl); }
      else { assert OwnerOk(g, s, NoneDead, c); AddrAfter(g, s, i, sl, b, s.owner[c].0, s.owner[c].1); }
    }
  }

  /** An attach changes no byte of any file and leaves no hole. */
  lemma AttachContent(g: Geo, s: State, i: nat, sl: Slot, b: nat, i': nat)
    requires Attachable(g, s, i, sl, b) && i' in s.inodes && NoHoles(g, s, i') && Shape(g, Attach(g, s, i, sl, b))
    ensures i' in Attach(g, s, i, sl, b).inodes && NoHoles(g, Attach(g, s, i, sl, b), i')
    ensures Content(g, Attach(g, s, i, sl, b), i') == Content(g, s, i')
  {
    hide Attach, Addr, Owned;
    var t := Attach(g, s, i, sl, b);
    AttachShape(g, s, i, sl, b);
    forall n | 0 <= n && n * g.bsize < s.inodes[i'].size ensures Addr(g, t.blocks, t.inodes[i'], DataSlot(g, n)) != 0 {
      BlockOfByte(g, s.inodes[i'].size, n * g.bsize);
      BlockStart(g, n);
      DataSlotOk(g, n);
      AddrAfter(g, s, i, sl, b, i', DataSlot(g, n));
    }
    forall x | 0 <= x < s.inodes[i'].size ensures ByteAt(g, t, i', x) == ByteAt(g, s, i', x) {
      SizeMapped(g, s, i', x);
      AttachByte(g, s, i, sl, b, i', x);
    }
  }

  /** Byte x of file i has a block, whether or not it is below the size. */
  ghost predicate Mapped(g: Geo, s: State, i: nat, x: nat)
    requires Shape(g, s) && i in s.inodes
  {
    x / g.bsize < g.MaxFile() && Addr(g, s.blocks, s.inodes[i], DataSlot(g, x / g.bsize)) != 0
  }

  lemma SizeMapped(g: Geo, s: State, i: nat, x: nat)
    requires Shape(g, s) && i in s.inodes && NoHoles(g, s, i) && x < s.inodes[i].size
    ensures Mapped(g, s, i, x)
  {
    hide Addr;
    BlockOfByte(g, s.inodes[i].size, x);
  }

  lemma BlockStart(g: Geo, n: nat)
    requires g.bsize > 0
    ensures n * g.bsize / g.bsize == n && n * g.bsize % g.bsize == 0
  {
    var q, r := n * g.bsize / g.bsize, n * g.bsize % g.bsize;
    assert q * g.bsize + r == n * g.bsize;
    MulStrict(q, n, g.bsize);
    MulStrict(n, q, g.bsize);
  }

  lemma AttachByte(g: Geo, s: State, i: nat, sl: Slot, b: nat, i': nat, x: nat)
    requires Attachable(g, s, i, sl, b) && i' in s.inodes && Shape(g, Attach(g, s, i, sl, b))
    requires Mapped(g, s, i', x) && i' in Attach(g, s, i, sl, b).inodes
    ensures ByteAt(g, Attach(g, s, i, sl, b), i', x) == ByteAt(g, s, i', x) && Mapped(g, Attach(g, s, i, sl, b), i', x)
  {
    hide Attach, Addr, Owned;
    var sl' := DataSlot(g, x / g.bsize);
    DataSlotOk(g, x / g.bsize);
    AddrAfter(g, s, i, sl, b, i', sl');
    AttachBlocks(g, s, i, sl, b);
    FreeNotInSlot(g, s, b, i', sl');
    KindAt(g, s, i', sl');
    if !InInode(sl) && Addr(g, s.blocks, s.inodes[i'], sl') == Addr(g, s.blocks, s.inodes[i], Parent(sl)) {
      SlotsApart(g, s, NoneDead, i', sl', i, Parent(sl));
    }
  }

  lemma AttachKeeps(g: Geo, s: State, i: nat, sl: Slot, b: nat)
    requires Attachable(g, s, i, sl, b) && Inv(g, s)
    ensures var t := Attach(g, s, i, sl, b);
      && Inv(g, t) && t.inodes.Keys == s.inodes.Keys
      && (forall i' :: i' in s.inodes ==> Content(g, t, i') == Content(g, s, i') && t.inodes[i'].size == s.inodes[i'].size)
      && Addr(g, t.blocks, t.inodes[i], sl) == b
  {
    hide Attach, Addr, Owned, Content, NoHoles;
    AttachShape(g, s, i, sl, b);
    AttachOwned(g, s, i, sl, b);
    AddrAfter(g, s, i, sl, b, i, sl);
    forall i' | i' in s.inodes ensures NoHoles(g, Attach(g, s, i, sl, b), i') && Content(g, Attach(g, s, i, sl, b), i') == Content(g, s, i') {
      AttachContent(g, s, i, sl, b, i');
    }
  }

  // ---------------------------------------------------------------- writing file bytes

  /** New bytes for the n-th block of file i. */
  function PutBlock(g: Geo, s: State, a: nat, d: seq<byte>): State
    requires a < |s.blocks|
  {
    s.(blocks := s.blocks[a := Bytes(d)])
  }

  /** Writing a data block moves no pointer. */
  lemma PutAddr(g: Geo, s: State, i: nat, n: nat, d: seq<byte>, i': nat, sl': Slot)
    requires Shape(g, s) && Owned(g, s, NoneDead) && i in s.inodes && n < g.MaxFile() && i' in s.inodes && SlotOk(g, sl')
    requires 0 < Addr(g, s.blocks, s.inodes[i], DataSlot(g, n)) < g.blocks
    ensures var t := PutBlock(g, s, Addr(g, s.blocks, s.inodes[i], DataSlot(g, n)), d);
      Addr(g, t.blocks, t.inodes[i'], sl') == Addr(g, s.blocks, s.inodes[i'], sl')
  {
    DataSlotOk(g, n);
    hide Owned;
    var a := Addr(g, s.blocks, s.inodes[i], DataSlot(g, n));
    match sl'
    case IndAt(_) => NotThis(g, s, i, n, i', Ind);
    case DblAt(_) => NotThis(g, s, i, n, i', Dbl);
    case DblAt2(j, _) => NotThis(g, s, i, n, i', Dbl); NotThis(g, s, i, n, i', DblAt(j));
    case _ =>
  }

  lemma NotThis(g: Geo, s: State, i: nat, n: nat, i': nat, ix: Slot)
    requires Shape(g, s) && Owned(g, s, NoneDead) && i in s.inodes && n < g.MaxFile() && i' in s.inodes
    requires SlotOk(g, ix) && IsIndex(ix) && Addr(g, s.blocks, s.inodes[i], DataSlot(g, n)) != 0
    ensures Addr(g, s.blocks, s.inodes[i'], ix) != Addr(g, s.blocks, s.inodes[i], DataSlot(g, n))
  {
    hide Addr;
    DataSlotOk(g, n);
    if Addr(g, s.blocks, s.inodes[i'], ix) == Addr(g, s.blocks, s.inodes[i], DataSlot(g, n)) {
      SlotsApart(g, s, NoneDead, i', ix, i, DataSlot(g, n));
    }
  }

  /** Exactly the bytes of block n of file i change. */
  lemma PutByte(g: Geo, s: State, i: nat, n: nat, d: seq<byte>, i': nat, x: nat)
    requires Shape(g, s) && Owned(g, s, NoneDead) && i in s.inodes && n < g.MaxFile() && i' in s.inodes && |d| == g.bsize
    requires 0 < Addr(g, s.blocks, s.inodes[i], DataSlot(g, n)) < g.blocks && Mapped(g, s, i', x)
    requires Shape(g, PutBlock(g, s, Addr(g, s.blocks, s.inodes[i], DataSlot(g, n)), d))
    ensures var t := PutBlock(g, s, Addr(g, s.blocks, s.inodes[i], DataSlot(g, n)), d);
      && ByteAt(g, t, i', x) == (if i' == i && x / g.bsize == n then d[x % g.bsize] else ByteAt(g, s, i', x))
      && Mapped(g, t, i', x)
  {
    hide Addr, Owned;
    DataSlotOk(g, n);
    DataSlotOk(g, x / g.bsize);
    PutAddr(g, s, i, n, d, i', DataSlot(g, x / g.bsize));
    KindAt(g, s, i', DataSlot(g, x / g.bsize));
    if Addr(g, s.blocks, s.inodes[i'], DataSlot(g, x / g.bsize)) == Addr(g, s.blocks, s.inodes[i], DataSlot(g, n)) {
      SlotsApart(g, s, NoneDead, i', DataSlot(g, x / g.bsize), i, DataSlot(g, n));
      DataSlotInjective(g, x / g.bsize, n);
    }
  }

  lemma PutKeeps(g: Geo, s: State, i: nat, n: nat, d: seq<byte>)
    requires Inv(g, s) && i in s.inodes && n < g.MaxFile() && |d| == g.bsize
    requires 0 < Addr(g, s.blocks, s.inodes[i], DataSlot(g, n)) < g.blocks
    ensures Inv(g, PutBlock(g, s, Addr(g, s.blocks, s.inodes[i], DataSlot(g, n)), d))
  {
    var t := PutBlock(g, s, Addr(g, s.blocks, s.inodes[i], DataSlot(g, n)), d);
    hide Addr;
    forall i', sl' | i' in t.inodes && SlotOk(g, sl') ensures KindOk(g, t, i', sl') && SlotOwned(g, t, NoneDead, i', sl') {
      PutAddr(g, s, i, n, d, i', sl');
      KindAt(g, s, i', sl');
      if IsIndex(sl') { NotThis(g, s, i, n, i', sl'); }
    }
    forall c | c in t.owner ensures OwnerOk(g, t, NoneDead, c) {
      assert OwnerOk(g, s, NoneDead, c);
      PutAddr(g, s, i, n, d, s.owner[c].0, s.owner[c].1);
    }
    assert Owned(g, t, NoneDead);
    forall i' | i' in t.inodes ensures NoHoles(g, t, i') {
      forall m | 0 <= m && m * g.bsize < t.inodes[i'].size ensures Addr(g, t.blocks, t.inodes[i'], DataSlot(g, m)) != 0 {
        BlockOfByte(g, s.inodes[i'].size, m * g.bsize);
        BlockStart(g, m);
        DataSlotOk(g, m);
        PutAddr(g, s, i, n, d, i', DataSlot(g, m));
      }
    }
  }

  /** ip->size grows over mapped bytes. */
  lemma ResizeKeeps(g: Geo, s: State, i: nat, size: nat)
    requires Inv(g, s) && i in s.inodes && s.inodes[i].size <= size <= g.MaxFile() * g.bsize
    requires forall x :: s.inodes[i].size <= x < size ==> Mapped(g, s, i, x)
    ensures Inv(g, s.(inodes := s.inodes[i := s.inodes[i].(size := size)]))
  {
    var t := s.(inodes := s.inodes[i := s.inodes[i].(size := size)]);
    SameTree(g, s, t);
    hide Addr, Owned;
    forall n | 0 <= n && n * g.bsize < size ensures Addr(g, t.blocks, t.inodes[i], DataSlot(g, n)) != 0 {
      BlockStart(g, n);
      if s.inodes[i].size <= n * g.bsize { assert Mapped(g, s, i, n * g.bsize); }
      AddrSame(g, s.blocks, s.inodes[i], t.inodes[i], DataSlot(g, n));
    }
    forall i' | i' in t.inodes ensures NoHoles(g, t, i') {
      if i' != i { assert NoHoles(g, s, i'); }
    }
  }

  lemma AddrSame(g: Geo, blocks: seq<Block>, p: Inode, q: Inode, sl: Slot)
    requires p.addrs == q.addrs
    ensures Addr(g, blocks, p, sl) == Addr(g, blocks, q, sl)
  {
  }

  /** The block tree does not depend on sizes. */
  lemma SameTree(g: Geo, s: State, t: State)
    requires Shape(g, s) && Owned(g, s, NoneDead) && t.blocks == s.blocks && t.bitmap == s.bitmap && t.owner == s.owner
    requires t.inodes.Keys == s.inodes.Keys && forall i :: i in s.inodes ==> t.inodes[i].addrs == s.inodes[i].addrs
    ensures Shape(g, t) && Owned(g, t, NoneDead)
  {
    hide Addr;
    forall i, sl | i in t.inodes && SlotOk(g, sl) ensures KindOk(g, t, i, sl) && SlotOwned(g, t, NoneDead, i, sl) {
      AddrSame(g, s.blocks, s.inodes[i], t.inodes[i], sl);
      KindAt(g, s, i, sl);
    }
    forall c | c in t.owner ensures OwnerOk(g, t, NoneDead, c) {
      assert OwnerOk(g, s, NoneDead, c);
      AddrSame(g, s.blocks, s.inodes[s.owner[c].0], t.inodes[s.owner[c].0], s.owner[c].1);
    }
  }
}
