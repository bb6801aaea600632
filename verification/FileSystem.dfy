/** The block allocator, bmap, readi, writei and itrunc on the state of FileState, with the set of
    blocks passed to log_write (xv6-lab-filesystem/fs.c:64-103, 377-559). */
module FileSystem {
  import opened Common
  import opened FileState
  import opened FileTruncation

  class Disk {
    const g: Geo
    var bitmap: seq<bool>
    var blocks: seq<Block>
    var inodes: map<nat, Inode>
    /** Blocks handed to log_write since the transaction began. */
    var logged: set<int>
    ghost var owner: map<int, (nat, Slot)>

    ghost function S(): State
      reads this
    {
      State(bitmap, blocks, inodes, owner)
    }

    ghost predicate Valid()
      reads this
    {
      Inv(g, S())
    }

    /** The bytes of file i. */
    ghost function File(i: nat): seq<byte>
      reads this
    {
      if i in inodes && g.ni > 0 && g.bsize > 0 then Content(g, S(), i) else []
    }

    /** A disk as mkfs leaves it: metadata marked in use, every inode empty. */
    constructor (g: Geo, files: set<nat>)
      requires g.Ok() && forall i :: i in files ==> i < g.ninodes
      ensures Valid() && this.g == g && inodes.Keys == files && logged == {}
      ensures forall i :: i in files ==> inodes[i].size == 0
      ensures |bitmap| == g.blocks && forall b :: 0 <= b < g.blocks ==> (bitmap[b] <==> b < g.meta)
    {
      this.g := g;
      bitmap := seq(g.blocks, b => b < g.meta);
      blocks := seq(g.blocks, _ => Zeroed);
      inodes := map i | i in files :: Inode(0, seq(g.Naddrs(), _ => 0));
      logged := {};
      owner := map[];
    }

    /** balloc: the first free block, marked and zeroed; 0 where the kernel panics because no
        block is free. */
    method Balloc() returns (b: nat)
      requires Inv(g, S())
      modifies `bitmap, `blocks, `logged
      ensures b == 0 <==> Full(old(bitmap))
      ensures b == 0 ==> bitmap == old(bitmap) && blocks == old(blocks) && logged == old(logged)
      ensures b != 0 ==>
        && g.meta <= b < g.blocks && !old(bitmap)[b] && (forall c :: 0 <= c < b ==> old(bitmap)[c])
        && bitmap == old(bitmap)[b := true] && blocks == old(blocks)[b := Zeroed]
        && logged == old(logged) + {g.Bblock(b), b}
    {
      var base := 0;
      while base < g.blocks
        invariant 0 <= base && bitmap == old(bitmap) && blocks == old(blocks) && logged == old(logged)
        invariant forall c :: 0 <= c < base && c < g.blocks ==> bitmap[c]
        decreases g.blocks - base
      {
        var bi := 0;
        while bi < g.bpb && base + bi < g.blocks
          invariant 0 <= bi <= g.bpb && bitmap == old(bitmap) && blocks == old(blocks) && logged == old(logged)
          invariant forall c :: 0 <= c < base + bi && c < g.blocks ==> bitmap[c]
          decreases g.bpb - bi
        {
          if !bitmap[base + bi] {
            bitmap := bitmap[base + bi := true];
            logged := logged + {g.Bblock(base + bi)};
            blocks := blocks[base + bi := Zeroed];
            logged := logged + {base + bi};
            return base + bi;
          }
          bi := bi + 1;
        }
        base := base + g.bpb;
      }
      return 0;
    }

    /** bfree: clear the bit. The kernel panics on a free block, so the bit must be set. */
    method Bfree(b: nat)
      requires g.Ok() && b < |bitmap| && bitmap[b]
      modifies `bitmap, `logged
      ensures bitmap == old(bitmap)[b := false] && logged == old(logged) + {g.Bblock(b)}
    {
      bitmap := bitmap[b := false];
      logged := logged + {g.Bblock(b)};
    }

    /** ip->addrs[..] = balloc(): a block for an empty slot of the inode itself. */
    method AllocHere(i: nat, sl: Slot) returns (b: nat)
      requires Valid() && i in inodes && SlotOk(g, sl) && InInode(sl) && Addr(g, blocks, inodes[i], sl) == 0
      modifies this
      ensures (b == 0 <==> Full(old(bitmap))) && Covered(g, old(S()), S(), i, old(logged), logged, {})
      ensures Valid() && inodes.Keys == old(inodes.Keys)
      ensures b == 0 ==> S() == old(S()) && logged == old(logged)
      ensures b != 0 ==>
        && Attachable(g, old(S()), i, sl, b) && S() == Attach(g, old(S()), i, sl, b)
        && Addr(g, blocks, inodes[i], sl) == b
        && logged == old(logged) + {g.Bblock(b), b}
    {
      hide Inv, Owned, Content, Covered, Full;
      ghost var s := S();
      InvOwned(g, s);
      CoveredNone(g, s, i, logged);
      b := Balloc();
      if b == 0 {
        return;
      }
      AttachKeeps(g, s, i, sl, b);
      var n := Index(g, sl);
      inodes := inodes[i := inodes[i].(addrs := inodes[i].addrs[n := b])];
      owner := owner[b := (i, sl)];
      assert S() == Attach(g, s, i, sl, b);
      CoveredAlloc(g, s, S(), i, b, b, old(logged), logged);
    }

    /** a[..] = balloc(); log_write(bp): a block for an empty entry of an index block. */
    method AllocEntry(i: nat, sl: Slot, up: nat) returns (b: nat)
      requires Valid() && i in inodes && SlotOk(g, sl) && !InInode(sl) && Addr(g, blocks, inodes[i], sl) == 0
      requires up == Addr(g, blocks, inodes[i], Parent(sl)) && up != 0
      modifies this
      ensures (b == 0 <==> Full(old(bitmap))) && Covered(g, old(S()), S(), i, old(logged), logged, {})
      ensures Valid() && inodes.Keys == old(inodes.Keys)
      ensures b == 0 ==> S() == old(S()) && logged == old(logged)
      ensures b != 0 ==>
        && Attachable(g, old(S()), i, sl, b) && S() == Attach(g, old(S()), i, sl, b)
        && Addr(g, blocks, inodes[i], sl) == b
        && logged == old(logged) + {g.Bblock(b), b, up}
    {
      hide Inv, Owned, Content, Covered, Full;
      ghost var s := S();
      InvOwned(g, s);
      CoveredNone(g, s, i, logged);
      b := Balloc();
      if b == 0 {
        return;
      }
      AttachKeeps(g, s, i, sl, b);
      AttachBlocks(g, s, i, sl, b);
      AttachFields(g, s, i, sl, b);
      hide Attach;
      blocks := blocks[up := PutWord(g, blocks[up], Index(g, sl), b)];
      logged := logged + {up};
      owner := owner[b := (i, sl)];
      assert S() == Attach(g, s, i, sl, b);
      CoveredAlloc(g, s, S(), i, b, up, old(logged), logged);
    }

    /** The entry of slot sl in the index block up, allocating it if it is missing. */
    method Entry(i: nat, sl: Slot, up: nat) returns (addr: nat, ghost isNew: bool)
      requires Valid() && i in inodes && SlotOk(g, sl) && !InInode(sl)
      requires up == Addr(g, blocks, inodes[i], Parent(sl)) && up != 0
      modifies this
      ensures (addr == 0 ==> Full(bitmap)) && Covered(g, old(S()), S(), i, old(logged), logged, {})
      ensures Valid() && Extends(g, old(S()), S()) && inodes.Keys == old(inodes.Keys)
      ensures addr != 0 ==> Addr(g, blocks, inodes[i], sl) == addr
      ensures isNew ==> addr != 0 && old(Addr(g, blocks, inodes[i], sl)) == 0 && logged == old(logged) + {g.Bblock(addr), addr, up}
      ensures !isNew ==> S() == old(S()) && logged == old(logged) && addr == old(Addr(g, blocks, inodes[i], sl))
      ensures Addr(g, blocks, inodes[i], Parent(sl)) == up
    {
      hide Inv, Owned, Extends, Addr, Covered, Full;
      ghost var s := S();
      ExtendsRefl(g, s);
      InvOwned(g, s);
      CoveredNone(g, s, i, logged);
      EntryRead(g, s, i, sl);
      addr := Word(blocks[up], Index(g, sl));
      isNew := false;
      if addr == 0 {
        addr := AllocEntry(i, sl, up);
        if addr != 0 {
          isNew := true;
          AttachExtends(g, s, i, sl, addr);
          ParentKept(g, s, S(), i, sl);
        }
      }
    }

    /** The block number in a slot of the inode itself, allocating it if it is missing. */
    method Here(i: nat, sl: Slot) returns (addr: nat, ghost isNew: bool)
      requires Valid() && i in inodes && SlotOk(g, sl) && InInode(sl)
      modifies this
      ensures (addr == 0 ==> Full(bitmap)) && Covered(g, old(S()), S(), i, old(logged), logged, {})
      ensures Valid() && Extends(g, old(S()), S()) && inodes.Keys == old(inodes.Keys)
      ensures addr != 0 ==> Addr(g, blocks, inodes[i], sl) == addr
      ensures isNew ==> addr != 0 && old(Addr(g, blocks, inodes[i], sl)) == 0 && logged == old(logged) + {g.Bblock(addr), addr}
      ensures !isNew ==> S() == old(S()) && logged == old(logged) && addr == old(Addr(g, blocks, inodes[i], sl))
    {
      hide Inv, Owned, Extends, Addr, Covered, Full;
      ghost var s := S();
      ExtendsRefl(g, s);
      InvOwned(g, s);
      CoveredNone(g, s, i, logged);
      HereRead(g, s, i, sl);
      addr := inodes[i].addrs[Index(g, sl)];
      isNew := false;
      if addr == 0 {
        addr := AllocHere(i, sl);
        if addr != 0 {
          isNew := true;
          AttachExtends(g, s, i, sl, addr);
        }
      }
    }

    /** bmap: the block of file block bn, allocated if there is none; 0 where the kernel panics
        because no block is free. Nothing that was mapped moves or changes a byte. */
    method Bmap(i: nat, bn: nat) returns (addr: nat, ghost newData: bool, ghost newInd: bool)
      requires Valid() && i in inodes && bn < g.MaxFile()
      modifies this
      ensures (addr == 0 ==> Full(bitmap)) && Covered(g, old(S()), S(), i, old(logged), logged, {})
      ensures Valid() && Extends(g, old(S()), S()) && inodes.Keys == old(inodes.Keys)
      ensures addr != 0 ==> Addr(g, blocks, inodes[i], DataSlot(g, bn)) == addr
      ensures old(Addr(g, blocks, inodes[i], DataSlot(g, bn))) != 0 ==>
        S() == old(S()) && logged == old(logged) && addr == old(Addr(g, blocks, inodes[i], DataSlot(g, bn))) && !newData && !newInd
      ensures newData ==> old(Addr(g, blocks, inodes[i], DataSlot(g, bn))) == 0
      ensures newInd ==> old(Addr(g, blocks, inodes[i], Ind)) == 0 && Addr(g, blocks, inodes[i], Ind) != 0
      ensures !g.dbl ==> logged <= old(logged) + Touched(g, addr, Addr(g, blocks, inodes[i], Ind), newData, newInd, bn >= g.nd)
      ensures newData || newInd ==> bn >= g.nd && !g.dbl ==> Addr(g, blocks, inodes[i], Ind) != 0
    {
      hide Inv, Owned, Extends, Addr, Covered, Full;
      newData, newInd := false, false;
      ghost var s := S();
      DataSlotOk2(g, s, bn);
      TreeParents(g, s, i, bn);
      if bn < g.nd {
        addr, newData := Here(i, Direct(bn));
        return;
      }
      var n := bn - g.nd;
      if n < g.ni {
        var ind;
        ind, newInd := Here(i, Ind);
        if ind == 0 {
          return 0, false, newInd;
        }
        ghost var s1, l1 := S(), logged;
        if newInd { NewIndEmpty(g, s, s1, i, n); }
        addr, newData := Entry(i, IndAt(n), ind);
        ExtendsTrans(g, s, s1, S());
        CoveredTrans(g, s, s1, S(), i, old(logged), l1, logged, {});
        return;
      }
      n := n - g.ni;
      var dbl, mid;
      ghost var new1, new2;
      dbl, new1 := Here(i, Dbl);
      if dbl == 0 {
        return 0, false, false;
      }
      ghost var s1, l1 := S(), logged;
      mid, new2 := Entry(i, DblAt(n / g.ni), dbl);
      ghost var s2, l2 := S(), logged;
      ExtendsTrans(g, s, s1, s2);
      CoveredTrans(g, s, s1, s2, i, old(logged), l1, l2, {});
      if mid == 0 {
        return 0, false, false;
      }
      addr, newData := Entry(i, DblAt2(n / g.ni, n % g.ni), mid);
      ExtendsTrans(g, s, s2, S());
      CoveredTrans(g, s, s2, S(), i, old(logged), l2, logged, {});
      if newData { NewSlotWasEmpty(g, s, s2, i, DblAt2(n / g.ni, n % g.ni)); }
    }

    /** readi: exactly the bytes of the file between off and off + n, as far as it goes; -1 if the
        destination takes fewer than that (it takes cap bytes). bmap finds every block it needs,
        so nothing is allocated or logged. */
    method Readi(i: nat, off: nat, n: nat, cap: nat) returns (r: int, data: seq<byte>)
      requires Valid() && i in inodes && off < 0x1_0000_0000 && n < 0x1_0000_0000
      modifies this
      ensures S() == old(S()) && logged == old(logged)
      ensures off > inodes[i].size || off + n >= 0x1_0000_0000 ==> r == 0 && data == []
      ensures off <= inodes[i].size && off + n < 0x1_0000_0000 ==>
        var want := if off + n > inodes[i].size then inodes[i].size - off else n;
        if cap >= want then r == want && data == Content(g, S(), i)[off..off + want] else r == -1
    {
      hide Inv, Owned, Extends, Addr, ByteAt, Content, Chunk, Within, BytesOf, Touched, Covered, Full;
      ghost var s := S();
      InvOwned(g, s);
      ContentSize(g, s, i);
      data := [];
      if off > inodes[i].size || off + n >= 0x1_0000_0000 {
        return 0, [];
      }
      var want := n;
      if off + n > inodes[i].size {
        want := inodes[i].size - off;
      }
      var tot, pos := 0, off;
      while tot < want
        invariant 0 <= tot <= want && pos == off + tot && |data| == tot && tot <= cap
        invariant S() == s && logged == old(logged)
        invariant data == Content(g, s, i)[off..off + tot]
        decreases want - tot
      {
        ReadMapped(g, s, i, pos);
        var addr, nd, ni := Bmap(i, pos / g.bsize);
        var m := Chunk(g, want - tot, pos);
        if tot + m > cap {
          return -1, data;
        }
        ReadChunk(g, s, i, pos, m);
        var o := Within(g, pos);
        JoinSlices(Content(g, s, i), off, tot, m);
        data := data + BytesOf(g, blocks[addr])[o..o + m];
        tot := tot + m;
        pos := pos + m;
      }
      return tot, data;
    }

    /** bread(bmap(..)), copy bs into the block at off, and log_write it unless the copy failed. */
    method PutAt(i: nat, off: nat, bs: seq<byte>, log: bool) returns (addr: nat, ghost newData: bool, ghost newInd: bool)
      requires Valid() && i in inodes && off / g.bsize < g.MaxFile() && g.bsize > 0 && off % g.bsize + |bs| <= g.bsize
      modifies this
      ensures (addr == 0 ==> Full(bitmap)) && Covered(g, old(S()), S(), i, old(logged), logged, if log || addr == 0 then {} else {addr})
      ensures Valid() && inodes.Keys == old(inodes.Keys) && KeepsInd(g, old(S()), S(), i)
      ensures addr == 0 ==> Extends(g, old(S()), S())
      ensures addr != 0 ==> Written(g, old(S()), S(), i, off, bs) && addr == Addr(g, blocks, inodes[i], DataSlot(g, off / g.bsize))
      ensures newData ==> old(Addr(g, blocks, inodes[i], DataSlot(g, off / g.bsize))) == 0
      ensures newInd ==> old(Addr(g, blocks, inodes[i], Ind)) == 0 && Addr(g, blocks, inodes[i], Ind) != 0
      ensures !g.dbl ==>
        logged <= old(logged) + {addr} + Touched(g, addr, Addr(g, blocks, inodes[i], Ind), newData, newInd, off / g.bsize >= g.nd)
      ensures newData || newInd ==> off / g.bsize >= g.nd && !g.dbl ==> Addr(g, blocks, inodes[i], Ind) != 0
    {
      hide Inv, Owned, Extends, Addr, ByteAt, Written, Covered, Full;
      ghost var s := S();
      InvOwned(g, s);
      addr, newData, newInd := Bmap(i, off / g.bsize);
      ghost var t, l := S(), logged;
      ExtendsInd(g, s, t, i);
      if addr == 0 {
        return;
      }
      BlockReady(g, t, i, off / g.bsize);
      var d := BytesOf(g, blocks[addr]);
      var d' := d[..off % g.bsize] + bs + d[off % g.bsize + |bs|..];
      PutKeeps(g, t, i, off / g.bsize, d');
      PutWritten(g, s, t, i, off, bs, d');
      PutInd(g, t, i, off / g.bsize, d');
      blocks := blocks[addr := Bytes(d')];
      if log {
        logged := logged + {addr};
      }
      CoveredPut(g, s, t, S(), i, addr, old(logged), l, logged, log);
    }

    /** One round of the loop in writei: the piece of src that fits in the block at off + tot, or the
        readable part of it. */
    method Piece(ghost s: State, i: nat, off: nat, src: seq<byte>, tot: nat, readable: nat,
                 ghost c: Count, ghost fits: nat, ghost l0: set<int>)
      returns (a: nat, upto: nat, m: nat, ghost c': Count)
      requires Valid() && Inv(g, s) && i in inodes && i in s.inodes && off <= s.inodes[i].size && g.bsize > 0
      requires tot < |src| && tot <= readable && off + |src| <= g.MaxFile() * g.bsize
      requires Written(g, s, S(), i, off, src[..tot])
      requires CountSets(g, S(), i, c, off) && CountPos(g, c, off, tot, |src|) && CountFits(g, c, off, |src|, fits)
      requires !g.dbl ==> logged <= l0 + c.data + c.index + c.bits
      modifies this
      ensures (a == 0 ==> Full(bitmap)) && Covered(g, old(S()), S(), i, old(logged), logged, if upto == tot + m || a == 0 then {} else {a})
      ensures Valid() && inodes.Keys == old(inodes.Keys)
      ensures m == Chunk(g, |src| - tot, off + tot) && upto == if tot + m > readable then readable else tot + m
      ensures Written(g, s, S(), i, off, src[..if a == 0 then tot else upto]) && (a != 0 ==> a == BlockOf(g, S(), i, off + tot))
      ensures CountSets(g, S(), i, c', off) && CountPos(g, c', off, tot + m, |src|) && CountFits(g, c', off, |src|, fits)
      ensures !g.dbl ==> logged <= l0 + c'.data + c'.index + c'.bits
    {
      hide Inv, Owned, Extends, Addr, ByteAt, Content, Written, Chunk, Within, Touched, KeepsInd, Covered, Full;
      hide CountSets, CountPos, CountFits, Counted, DataSlot;
      ghost var t, l := S(), logged;
      InvOwned(g, s);
      PosInFile(g, off + tot, off + |src|);
      m := Chunk(g, |src| - tot, off + tot);
      upto := if tot + m > readable then readable else tot + m;
      WithinIs(g, off + tot);
      ghost var x, y;
      a, x, y := PutAt(i, off + tot, src[tot..upto], upto == tot + m);
      PutResult(g, s, t, S(), i, off, src, tot, upto, a);
      CountNext(g, s, t, S(), i, c, off, tot, src, a, x, y, fits);
      LoggedNext(g, l0, l, logged, c, a, Addr(g, blocks, inodes[i], Ind), x, y, (off + tot) / g.bsize >= g.nd);
      c' := Counted(g, c, a, Addr(g, blocks, inodes[i], Ind), x, y, (off + tot) / g.bsize >= g.nd);
    }

    /** The loop of writei: w bytes are copied, tot of them in complete pieces. */
    method WriteLoop(i: nat, off: nat, src: seq<byte>, readable: nat, ghost fits: nat)
      returns (ok: bool, tot: nat, ghost w: nat, ghost c: Count)
      requires Valid() && i in inodes && off <= inodes[i].size && g.bsize > 0 && off + |src| <= g.MaxFile() * g.bsize
      modifies this
      ensures (!ok ==> Full(bitmap)) && Covered(g, old(S()), S(), i, old(logged), logged, Loose(g, S(), i, off, tot, ok && readable < |src|))
      ensures Valid() && inodes.Keys == old(inodes.Keys) && w <= |src| && Written(g, old(S()), S(), i, off, src[..w])
      ensures CountSets(g, S(), i, c, off) && CountFits(g, c, off, |src|, fits)
      ensures !g.dbl ==> logged <= old(logged) + c.data + c.index + c.bits
      ensures ok ==> tot == Reported(g.bsize, off, |src|, readable) && w == Least(readable, |src|)
    {
      hide Inv, Owned, Extends, Addr, ByteAt, Content, Written, Chunk, Within, Touched, KeepsInd;
      hide CountSets, CountPos, CountFits, Counted, DataSlot, Reported, Covered, Loose, Full, Shape;
      ghost var s := S();
      GeoOk(g, s);
      InvOwned(g, s);
      CoveredNone(g, s, i, logged);
      tot, w := 0, 0;
      c := Count({}, {}, {}, 0, 0, 0);
      WrittenNothing(g, s, i, off, src);
      CountStart(g, s, i, off, |src|, fits);
      while tot < |src|
        invariant 0 <= tot <= |src| && tot <= readable && w == tot
        invariant Inv(g, S()) && inodes.Keys == old(inodes.Keys) && Written(g, s, S(), i, off, src[..w])
        invariant CountSets(g, S(), i, c, off) && CountPos(g, c, off, tot, |src|) && CountFits(g, c, off, |src|, fits)
        invariant Covered(g, s, S(), i, old(logged), logged, {})
        invariant !g.dbl ==> logged <= old(logged) + c.data + c.index + c.bits
        decreases |src| - tot
      {
        var a, upto, m;
        ghost var t, l, c1 := S(), logged, c;
        a, upto, m, c := Piece(s, i, off, src, tot, readable, c, fits, old(logged));
        CoveredTrans(g, s, t, S(), i, old(logged), l, logged, if upto == tot + m || a == 0 then {} else {a});
        if a == 0 {
          NotLoose(g, S(), i, off, tot);
          return false, tot, w, c;
        }
        w := upto;
        if upto < tot + m {
          ReportedHere(g, c1, off, tot, |src|, readable);
          LooseIs(g, S(), i, off, tot);
          return true, tot, w, c;
        }
        tot := tot + m;
      }
      NotLoose(g, S(), i, off, tot);
      return true, tot, w, c;
    }

    /** writei: src is copied to offset off block by block; readable is how many of its bytes the
        caller's memory yields. Returns the bytes of the blocks that were copied completely, or
        -1 if the range is not allowed; ok is false where the kernel panics because every block is in
        use. fits bounds the request in blocks, for the size of the transaction. */
    method Writei(i: nat, off: nat, src: seq<byte>, readable: nat, ghost fits: nat) returns (ok: bool, r: int)
      requires Valid() && i in inodes && off < 0x1_0000_0000 && |src| < 0x1_0000_0000
      modifies this
      ensures (!ok ==> Full(bitmap)) && Covered(g, old(S()), S(), i, old(logged), logged, Loose(g, S(), i, off, r, ok && readable < |src|))
      ensures Valid() && inodes.Keys == old(inodes.Keys)
      ensures forall j :: j in inodes && j != i ==> Content(g, S(), j) == old(Content(g, S(), j))
      ensures off > old(inodes[i].size) || off + |src| >= 0x1_0000_0000 || off + |src| > g.MaxFile() * g.bsize ==>
        ok && r == -1 && S() == old(S()) && logged == old(logged)
      ensures off <= old(inodes[i].size) && off + |src| < 0x1_0000_0000 && off + |src| <= g.MaxFile() * g.bsize && ok ==>
        && r == Reported(g.bsize, off, |src|, readable) && g.Iblock(i) in logged
        && Content(g, S(), i) == Overlay(old(Content(g, S(), i)), off, src[..Least(readable, |src|)], off + r)
        && (Content(g, S(), i) == Replaced(old(Content(g, S(), i)), off, src[..r]) <==> Unspilled(old(Content(g, S(), i)), off, src, readable, g.bsize))
      ensures !g.dbl && |src| <= fits * g.bsize ==> |logged - old(logged)| <= 2 * fits + 4
    {
      hide Inv, Owned, Content, Written, Overlay, CountSets, CountFits, Reported, Replaced, Unspilled, Covered, Loose, Full;
      ghost var s := S();
      InvOwned(g, s);
      ContentSize(g, s, i);
      CoveredAny(g, s, i, logged, Loose(g, s, i, off, -1, readable < |src|));
      if off > inodes[i].size || off + |src| >= 0x1_0000_0000 {
        return true, -1;
      }
      if off + |src| > g.MaxFile() * g.bsize {
        return true, -1;
      }
      var tot;
      ghost var w, c;
      ok, tot, w, c := WriteLoop(i, off, src, readable, fits);
      ghost var t := S();
      if !ok {
        OtherContents(g, s, t, i, off, src[..w]);
        NotLoose(g, t, i, off, tot);
        NotLoose(g, t, i, off, 0);
        LogBound(g, t, i, c, off, |src|, fits, old(logged), logged, 0);
        return false, 0;
      }
      if off + tot > inodes[i].size {
        inodes := inodes[i := inodes[i].(size := off + tot)];
      }
      WrittenContent(g, s, t, S(), i, off, src[..w], off + tot);
      InterruptedWrite(Content(g, s, i), off, src, readable, g.bsize);
      LogBound(g, t, i, c, off, |src|, fits, old(logged), logged, g.Iblock(i));
      CoveredSize(g, s, t, S(), i, old(logged), logged, g.Iblock(i), off, tot, readable < |src|);
      logged := logged + {g.Iblock(i)};
      return true, tot;
    }

    /** One transaction of filewrite: begin_op, writei of the piece src[at..at + n1], end_op. The file
        then holds src[..copied] from off on, and has grown to what was reported. */
    method Transaction(i: nat, off: nat, src: seq<byte>, at: nat, n1: nat, readable: nat, ghost c: seq<byte>, ghost fits: nat)
      returns (fine: bool, r: int, ghost copied: nat)
      requires Valid() && i in inodes && off + at < 0x1_0000_0000 && at + n1 <= |src| < 0x1_0000_0000 && 0 < n1 <= fits * g.bsize
      requires FileHas(g, S(), i, c, off, src, at, at)
      modifies this
      ensures !fine ==> Full(bitmap)
      ensures Valid() && inodes.Keys == old(inodes.Keys) && (fine ==> -1 <= r <= n1)
      ensures forall j :: j in inodes && j != i ==> Content(g, S(), j) == old(Content(g, S(), j))
      ensures !g.dbl ==> |logged| <= 2 * fits + 4
      ensures fine ==> FileHas(g, S(), i, c, off, src, at + (if r > 0 then r else 0), copied)
      ensures off > |c| || off + at + n1 > Limit(g) ==> fine && r == -1 && copied == at && S() == old(S()) && logged == {}
      ensures off <= |c| && off + at + n1 <= Limit(g) && fine ==>
        r == Reported(g.bsize, off + at, n1, readable) && copied == at + Least(readable, n1) && g.Iblock(i) in logged
      ensures Covered(g, old(S()), S(), i, {}, logged, Loose(g, S(), i, off + at, r, fine && readable < n1))
    {
      hide Inv, Owned, Shape, Content, Overlay, Chunk, FileHas, Reported, Limit, Covered, Loose;
      ghost var s := S();
      InvOwned(g, s);
      ContentSize(g, s, i);
      SizeNow(g, s, i, c, off, src, at);
      LimitIs(g, off + at + n1);
      logged := {};
      var bs := src[at..at + n1];
      fine, r := Writei(i, off + at, bs, readable, fits);
      assert logged - {} == logged;
      copied := if r < 0 then at else if r == n1 then at + n1 else at + readable;
      if fine {
        InvOwned(g, S());
        HasMore(g, s, S(), i, c, off, src, at, n1, bs, r, readable, copied);
      }
    }

    /** filewrite on an inode (xv6-lab-mmap/file.c:148-175): one transaction per piece. peak is the
        largest number of distinct blocks any of its transactions passed to log_write. The offset
        moves by the reported bytes; src[..copied] has reached the file. */
    method FileWrite(i: nat, off: nat, src: seq<byte>, readable: nat, maxop: nat)
      returns (ok: bool, ret: int, off': nat, ghost copied: nat, ghost peak: nat)
      requires Valid() && i in inodes && off < 0x1_0000_0000 && |src| < 0x8000_0000 && maxop >= 6
      modifies this
      ensures !ok ==> Full(bitmap)
      ensures Valid() && inodes.Keys == old(inodes.Keys)
      ensures forall j :: j in inodes && j != i ==> File(j) == old(File(j))
      ensures !g.dbl ==> peak <= maxop
      ensures ok ==> off' == off + Moved(g, old(inodes[i].size), off, |src|, readable, (maxop - 4) / 2 * g.bsize)
      ensures ok ==> copied == Copied(g, old(inodes[i].size), off, |src|, readable, (maxop - 4) / 2 * g.bsize)
      ensures ok ==> off' >= off && FileHas(g, S(), i, old(File(i)), off, src, off' - off, copied)
      ensures ok ==> (ret == |src| || ret == -1)
      ensures ok ==> (ret == |src| <==> |src| == 0 || (off <= old(inodes[i].size) && off + |src| <= Limit(g) && readable >= |src|))
    {
      hide Inv, Content, Overlay, Chunk, FileHas, Limit, Moved, Copied, Reported, Pieces, Full, Covered, Loose, Owned, Shape;
      ghost var s, k := S(), (maxop - 4) / 2;
      InvOwned(g, s);
      GeoOk(g, s);
      var max := (maxop - 1 - 1 - 2) / 2 * g.bsize;
      MulMono(1, k, g.bsize);
      var n, at := |src|, 0;
      off', peak, ret, copied := off, 0, 0, 0;
      ghost var c, q := Content(g, s, i), 0;
      HasNothing(g, s, i, off, src);
      ContentSize(g, s, i);
      NoPieces(max);
      while at < n
        invariant 0 <= at <= n && off' == off + at && copied == at <= readable && (at == n || Pieces(at, q, max))
        invariant at > 0 ==> off <= |c| && off + at <= Limit(g)
        invariant Valid() && inodes.Keys == old(inodes.Keys)
        invariant forall j :: j in inodes && j != i ==> Content(g, S(), j) == Content(g, s, j)
        invariant !g.dbl ==> peak <= maxop
        invariant FileHas(g, S(), i, c, off, src, at, copied)
        decreases n - at
      {
        var n1 := n - at;
        if n1 > max {
          n1 := max;
        }
        var fine, r;
        LimitIs(g, off + at);
        fine, r, copied := Transaction(i, off, src, at, n1, readable - at, c, k);
        peak := if |logged| > peak then |logged| else peak;
        if !fine {
          return false, -1, off', copied, peak;
        }
        if r > 0 {
          off' := off' + r;
        }
        if r != n1 {
          StopsHere(g, |c|, off, n, readable, max, at, q, n1);
          return true, -1, off', copied, peak;
        }
        NextPiece(at, q, max);
        at := at + r;
        q := q + 1;
      }
      EndsHere(g, |c|, off, n, readable, max);
      return true, n, off', copied, peak;
    }

    /** bfree(..) of the block in slot sl of file i, which is being truncated. */
    method FreeSlot(ghost s0: State, i: nat, sl: Slot, b: nat, ghost dead: set<Slot>)
      requires Truncating(g, s0, S(), i, dead) && SlotOk(g, sl) && sl !in dead && b == Addr(g, blocks, inodes[i], sl) != 0
      modifies `bitmap, `owner, `logged
      ensures Truncating(g, s0, S(), i, dead + {sl})
      ensures FreesLogged(g, s0, i, old(bitmap), bitmap, old(logged), logged)
    {
      hide Truncating, Addr, BitmapBlocks;
      FreeReady(g, s0, S(), i, sl, dead);
      FreeKeeps(g, s0, S(), i, sl, dead);
      Bfree(b);
      owner := owner - {b};
    }

    /** The loop over one index block: give back every block that the block up of slot p names. */
    method FreeTable(ghost s0: State, i: nat, p: Slot, up: nat, ghost dead: set<Slot>) returns (ghost dead': set<Slot>)
      requires Truncating(g, s0, S(), i, dead) && SlotOk(g, p) && (p.Ind? || p.DblAt?) && up == Addr(g, blocks, inodes[i], p) != 0
      requires forall j :: 0 <= j < g.ni ==> Child(p, j) !in dead
      modifies `bitmap, `owner, `logged
      ensures Truncating(g, s0, S(), i, dead') && ChildrenDead(g, blocks, inodes[i], p, g.ni, dead, dead')
      ensures FreesLogged(g, s0, i, old(bitmap), bitmap, old(logged), logged)
    {
      hide Truncating, Addr, FreesLogged;
      TruncShape(g, s0, S(), i, dead);
      FreesNothing(g, s0, i, bitmap, logged);
      dead' := dead;
      var j := 0;
      while j < g.ni
        invariant 0 <= j <= g.ni && Truncating(g, s0, S(), i, dead') && ChildrenDead(g, blocks, inodes[i], p, j, dead, dead')
        invariant FreesLogged(g, s0, i, old(bitmap), bitmap, old(logged), logged)
      {
        ChildRead(g, s0, S(), i, p, j, dead');
        var b := Word(blocks[up], j);
        ghost var s, was, l := S(), dead', logged;
        if b != 0 {
          FreeSlot(s0, i, Child(p, j), b, dead');
          FreesTrans(g, s0, i, old(bitmap), s.bitmap, bitmap, old(logged), l, logged);
          dead' := dead' + {Child(p, j)};
        }
        ChildrenNext(g, blocks, inodes[i], p, j, dead, was, dead');
        j := j + 1;
      }
    }

    /** ip->addrs[..] = 0, once everything below the slot was given back. */
    method ClearTop(ghost s0: State, i: nat, top: Slot, ghost dead: set<Slot>)
      requires Truncating(g, s0, S(), i, dead) && SlotOk(g, top) && InInode(top) && BelowDead(g, blocks, inodes[i], top, dead)
      modifies `inodes
      ensures Truncating(g, s0, S(), i, dead) && S() == Cleared(g, old(S()), i, top)
    {
      hide Truncating, Addr, BelowDead;
      TruncShape(g, s0, S(), i, dead);
      TopIndex(g, s0, S(), i, top, dead);
      ClearKeeps(g, s0, S(), i, top, dead);
      var n := Index(g, top);
      inodes := inodes[i := inodes[i].(addrs := inodes[i].addrs[n := 0])];
    }

    /** The first loop of itrunc, over the direct blocks. */
    method TruncDirect(ghost s0: State, i: nat) returns (ghost dead: set<Slot>)
      requires Truncating(g, s0, S(), i, {})
      modifies `bitmap, `owner, `logged, `inodes
      ensures Truncating(g, s0, S(), i, dead) && DirectsDone(inodes[i], g.nd, dead)
      ensures FreesLogged(g, s0, i, old(bitmap), bitmap, old(logged), logged)
    {
      hide Truncating, Addr, BelowDead, DirectsDone, FreesLogged;
      dead := {};
      TruncShape(g, s0, S(), i, dead);
      FreesNothing(g, s0, i, bitmap, logged);
      DirectStart(inodes[i]);
      var n := 0;
      while n < g.nd
        invariant 0 <= n <= g.nd && Truncating(g, s0, S(), i, dead) && i in inodes && DirectsDone(inodes[i], n, dead)
        invariant FreesLogged(g, s0, i, old(bitmap), bitmap, old(logged), logged)
      {
        ghost var s, was, l := S(), dead, logged;
        TruncShape(g, s0, s, i, dead);
        TopIndex(g, s0, s, i, Direct(n), dead);
        DirectFresh(inodes[i], n, dead);
        if inodes[i].addrs[n] != 0 {
          FreeSlot(s0, i, Direct(n), inodes[i].addrs[n], dead);
          FreesTrans(g, s0, i, old(bitmap), s.bitmap, bitmap, old(logged), l, logged);
          dead := dead + {Direct(n)};
          DirectBelow(g, blocks, inodes[i], n, dead);
          ClearTop(s0, i, Direct(n), dead);
        }
        DirectNext(s.inodes[i], inodes[i], n, was, dead);
        n := n + 1;
      }
    }

    /** The single-indirect part of itrunc. */
    method TruncIndirect(ghost s0: State, i: nat, ghost dead: set<Slot>) returns (ghost dead': set<Slot>)
      requires i in inodes && Truncating(g, s0, S(), i, dead) && DirectsDone(inodes[i], g.nd, dead)
      modifies `bitmap, `owner, `logged, `inodes
      ensures Truncating(g, s0, S(), i, dead') && NoDirects(g, inodes[i]) && BelowDead(g, blocks, inodes[i], Ind, {}) && DblAlive(dead')
      ensures FreesLogged(g, s0, i, old(bitmap), bitmap, old(logged), logged)
    {
      hide Truncating, Addr, BelowDead, DirectsDone, ChildrenDead, NoDirects, DblAlive, FreesLogged;
      TruncShape(g, s0, S(), i, dead);
      FreesNothing(g, s0, i, bitmap, logged);
      TopIndex(g, s0, S(), i, Ind, dead);
      OnlyDirects(g, inodes[i], dead);
      dead' := dead;
      var up := inodes[i].addrs[g.nd];
      if up == 0 {
        EmptyTop(g, blocks, inodes[i], Ind);
        return;
      }
      dead' := FreeTable(s0, i, Ind, up, dead);
      IndFresh(g, blocks, inodes[i], dead, dead');
      ghost var bm, l := bitmap, logged;
      FreeSlot(s0, i, Ind, up, dead');
      FreesTrans(g, s0, i, old(bitmap), bm, bitmap, old(logged), l, logged);
      IndBelow(g, blocks, inodes[i], dead, dead', dead' + {Ind});
      dead' := dead' + {Ind};
      ghost var s := S();
      TruncShape(g, s0, s, i, dead');
      ClearTop(s0, i, Ind, dead');
      ClearedEmpty(g, s, S(), i, Ind);
      DirectsKept(g, s.inodes[i], inodes[i]);
    }

    /** The double-indirect part of itrunc: the outer table through bp, each inner one through bi. */
    method TruncDouble(ghost s0: State, i: nat, ghost dead: set<Slot>) returns (ghost dead': set<Slot>)
      requires i in inodes && Truncating(g, s0, S(), i, dead) && NoDirects(g, inodes[i]) && BelowDead(g, blocks, inodes[i], Ind, {}) && DblAlive(dead) && g.dbl
      modifies `bitmap, `owner, `logged, `inodes
      ensures Truncating(g, s0, S(), i, dead') && NoDirects(g, inodes[i]) && BelowDead(g, blocks, inodes[i], Ind, {}) && BelowDead(g, blocks, inodes[i], Dbl, {})
      ensures FreesLogged(g, s0, i, old(bitmap), bitmap, old(logged), logged)
    {
      hide Truncating, Addr, BelowDead, ChildrenDead, NoDirects, DblAlive, DblUpto, FreesLogged;
      TruncShape(g, s0, S(), i, dead);
      FreesNothing(g, s0, i, bitmap, logged);
      TopIndex(g, s0, S(), i, Dbl, dead);
      dead' := dead;
      var up := inodes[i].addrs[g.nd + 1];
      if up == 0 {
        EmptyTop(g, blocks, inodes[i], Dbl);
        return;
      }
      DblStart(g, blocks, inodes[i], dead);
      var j := 0;
      while j < g.ni
        invariant 0 <= j <= g.ni && Truncating(g, s0, S(), i, dead') && i in inodes && DblUpto(g, blocks, inodes[i], j, dead')
        invariant FreesLogged(g, s0, i, old(bitmap), bitmap, old(logged), logged)
        invariant inodes == old(inodes) && blocks == old(blocks)
      {
        ChildRead(g, s0, S(), i, Dbl, j, dead');
        var mid := Word(blocks[up], j);
        if mid != 0 {
          DblFresh(g, blocks, inodes[i], j, dead');
          ghost var was, bm, l := dead', bitmap, logged;
          dead' := FreeTable(s0, i, DblAt(j), mid, was);
          MidFresh(g, blocks, inodes[i], j, was, dead');
          FreesTrans(g, s0, i, old(bitmap), bm, bitmap, old(logged), l, logged);
          bm, l := bitmap, logged;
          FreeSlot(s0, i, DblAt(j), mid, dead');
          FreesTrans(g, s0, i, old(bitmap), bm, bitmap, old(logged), l, logged);
          DblNext(g, blocks, inodes[i], j, was, dead', dead' + {DblAt(j)});
          dead' := dead' + {DblAt(j)};
        } else {
          DblSkip(g, blocks, inodes[i], j, dead');
        }
        j := j + 1;
      }
      DblFresh(g, blocks, inodes[i], g.ni, dead');
      ghost var bm, l := bitmap, logged;
      FreeSlot(s0, i, Dbl, up, dead');
      FreesTrans(g, s0, i, old(bitmap), bm, bitmap, old(logged), l, logged);
      DblBelow(g, blocks, inodes[i], dead');
      dead' := dead' + {Dbl};
      ghost var s := S();
      TruncShape(g, s0, s, i, dead');
      ClearTop(s0, i, Dbl, dead');
      ClearedEmpty(g, s, S(), i, Dbl);
      DirectsKept(g, s.inodes[i], inodes[i]);
    }

    /** itrunc: the file is empty afterwards, exactly its blocks are free again, and no bfree met a
        free block. */
    method Itrunc(i: nat)
      requires Valid() && i in inodes
      modifies this
      ensures Valid() && inodes.Keys == old(inodes.Keys) && blocks == old(blocks)
      ensures Content(g, S(), i) == [] && forall sl :: SlotOk(g, sl) ==> Addr(g, blocks, inodes[i], sl) == 0
      ensures forall j :: j in inodes && j != i ==> inodes[j] == old(inodes)[j] && Content(g, S(), j) == old(Content(g, S(), j))
      ensures forall b :: 0 <= b < g.blocks ==> (bitmap[b] <==> old(bitmap)[b] && !(b in old(owner) && old(owner)[b].0 == i))
      ensures WithoutOwner(old(owner), owner, i)
      ensures logged == old(logged) + BitmapBlocks(g, old(S()), i) + {g.Iblock(i)}
    {
      hide Inv, Owned, Addr, Truncating, Content, BelowDead, DirectsDone, NoDirects, DblAlive, BitmapBlocks, FreesLogged;
      ghost var s0 := S();
      InvOwned(g, s0);
      TruncStart(g, s0, i);
      ghost var dead := TruncDirect(s0, i);
      TruncShape(g, s0, S(), i, dead);
      ghost var bm, l := bitmap, logged;
      dead := TruncIndirect(s0, i, dead);
      FreesTrans(g, s0, i, s0.bitmap, bm, bitmap, old(logged), l, logged);
      TruncShape(g, s0, S(), i, dead);
      bm, l := bitmap, logged;
      if g.dbl {
        dead := TruncDouble(s0, i, dead);
        FreesTrans(g, s0, i, s0.bitmap, bm, bitmap, old(logged), l, logged);
      }
      l := logged;
      ghost var s := S();
      TruncShape(g, s0, s, i, dead);
      inodes := inodes[i := inodes[i].(size := 0)];
      logged := logged + {g.Iblock(i)};
      TruncEnd(g, s0, s, i, dead, S());
      FreedAll(g, s0, i, bitmap, old(logged), l);
      InvOwned(g, S());
      forall j | j in inodes && j != i ensures inodes[j] == old(inodes)[j] && Content(g, S(), j) == Content(g, s0, j) {
        SameContent(g, s0, S(), j);
      }
      ContentSize(g, S(), i);
    }
  }

  /** Every block is in use. */
  ghost predicate Full(bm: seq<bool>) { forall b :: 0 <= b < |bm| ==> bm[b] }

  /** Everything that changed from s to t has been passed to log_write: of each block taken, its bit and
      the block itself; each block with other contents, the loose ones perhaps excepted. No bit was
      cleared and no logged block forgotten; of the inodes only i changed. */
  ghost predicate Covered(g: Geo, s: State, t: State, i: nat, l: set<int>, l': set<int>, loose: set<int>) {
    && g.bpb > 0 && |t.bitmap| == |s.bitmap| && |t.blocks| == |s.blocks| && t.inodes.Keys == s.inodes.Keys && l <= l'
    && (forall b :: 0 <= b < |s.bitmap| ==> (s.bitmap[b] ==> t.bitmap[b]) && (t.bitmap[b] && !s.bitmap[b] ==> b in l' && g.Bblock(b) in l'))
    && (forall b :: 0 <= b < |s.blocks| && t.blocks[b] != s.blocks[b] ==> b in l' || b in loose)
    && forall j :: j in s.inodes && j != i ==> t.inodes[j] == s.inodes[j]
  }

  /** The block of byte x of file i. */
  ghost function BlockOf(g: Geo, s: State, i: nat, x: nat): nat
    requires i in s.inodes && g.bsize > 0 && g.ni > 0
  {
    Addr(g, s.blocks, s.inodes[i], DataSlot(g, x / g.bsize))
  }

  /** What an interrupted copy leaves changed but not logged: the block it stopped in. */
  ghost function Loose(g: Geo, s: State, i: nat, off: nat, r: int, cut: bool): set<int> {
    if cut && r >= 0 && i in s.inodes && g.bsize > 0 && g.ni > 0 then {BlockOf(g, s, i, off + r)} else {}
  }

  lemma LooseIs(g: Geo, s: State, i: nat, off: nat, r: nat)
    requires i in s.inodes && g.bsize > 0 && g.ni > 0
    ensures Loose(g, s, i, off, r, true) == {BlockOf(g, s, i, off + r)}
  {
  }

  lemma GeoOk(g: Geo, s: State)
    requires Inv(g, s)
    ensures g.bpb > 0 && g.ni > 0 && g.bsize > 0
  {
  }

  lemma NotLoose(g: Geo, s: State, i: nat, off: nat, r: int)
    ensures Loose(g, s, i, off, r, false) == {}
  {
  }

  lemma CoveredTrans(g: Geo, s: State, t: State, u: State, i: nat, k: set<int>, l: set<int>, m: set<int>, loose: set<int>)
    requires Covered(g, s, t, i, k, l, {}) && Covered(g, t, u, i, l, m, loose)
    ensures Covered(g, s, u, i, k, m, loose)
  {
  }

  lemma CoveredNone(g: Geo, s: State, i: nat, l: set<int>)
    requires g.bpb > 0
    ensures Covered(g, s, s, i, l, l, {})
  {
  }

  lemma CoveredAny(g: Geo, s: State, i: nat, l: set<int>, loose: set<int>)
    requires g.bpb > 0
    ensures Covered(g, s, s, i, l, l, loose)
  {
  }

  lemma CoveredAlloc(g: Geo, s: State, t: State, i: nat, b: nat, up: nat, l: set<int>, l': set<int>)
    requires g.bpb > 0 && b < |s.bitmap| && t.bitmap == s.bitmap[b := true] && {g.Bblock(b), b, up} <= l' && l <= l'
    requires b < |s.blocks| && up < |s.blocks| && |t.blocks| == |s.blocks| && t.blocks == s.blocks[b := Zeroed][up := t.blocks[up]]
    requires i in s.inodes && i in t.inodes && t.inodes == s.inodes[i := t.inodes[i]]
    ensures Covered(g, s, t, i, l, l', {})
  {
  }

  lemma CoveredPut(g: Geo, s: State, t: State, u: State, i: nat, a: nat, k: set<int>, l: set<int>, m: set<int>, log: bool)
    requires Covered(g, s, t, i, k, l, {}) && 0 < a < |t.blocks| && u.bitmap == t.bitmap && u.inodes == t.inodes
    requires |u.blocks| == |t.blocks| && (forall b :: 0 <= b < |t.blocks| && b != a ==> u.blocks[b] == t.blocks[b])
    requires l <= m && (log ==> a in m)
    ensures Covered(g, s, u, i, k, m, if log || a == 0 then {} else {a})
  {
  }

  lemma CoveredSize(g: Geo, s: State, t: State, u: State, i: nat, l: set<int>, l': set<int>, x: int, off: nat, r: nat, cut: bool)
    requires i in s.inodes && i in t.inodes && g.bsize > 0 && g.ni > 0 && Covered(g, s, t, i, l, l', Loose(g, t, i, off, r, cut))
    requires u.bitmap == t.bitmap && u.blocks == t.blocks && i in u.inodes && u.inodes == t.inodes[i := u.inodes[i]] && u.inodes[i].addrs == t.inodes[i].addrs
    ensures Covered(g, s, u, i, l, l' + {x}, Loose(g, u, i, off, r, cut))
  {
  }

  /** File i is c with src[..copied] laid over it from off on, grown to off + done; past the end of
      c nothing can be written. */
  ghost predicate FileHas(g: Geo, s: State, i: nat, c: seq<byte>, off: nat, src: seq<byte>, done: nat, copied: nat) {
    && Shape(g, s) && i in s.inodes && done <= copied <= |src|
    && if off <= |c| then Content(g, s, i) == Overlay(c, off, src[..copied], off + done) else Content(g, s, i) == c && copied == 0
  }

  // ---------------------------------------------------------------- how far filewrite gets

  /** No file reaches further: its map of blocks is full, or the offset would not fit in 32 bits. */
  function Limit(g: Geo): nat { Least(g.MaxFile() * g.bsize, 0xFFFF_FFFF) }

  lemma LimitIs(g: Geo, x: nat)
    ensures x <= Limit(g) <==> x < 0x1_0000_0000 && x <= g.MaxFile() * g.bsize
  {
  }

  /** The last multiple of m up to x. */
  function Floor(x: nat, m: nat): nat { if m == 0 then 0 else x / m * m }

  /** The bytes in pieces of max bytes that end within the limit; the pieces after them are refused. */
  function Accepted(g: Geo, off: nat, len: nat, max: nat): nat {
    if off + len <= Limit(g) then len else if off <= Limit(g) then Floor(Limit(g) - off, max) else 0
  }

  /** How far filewrite moves the offset of a file of size bytes: over the accepted pieces, or, if the
      caller's memory yields less, to the last start of a piece or of a block that was reached. */
  function Moved(g: Geo, size: nat, off: nat, len: nat, readable: nat, max: nat): int {
    if off > size then 0
    else if readable >= Accepted(g, off, len, max) then Accepted(g, off, len, max)
    else Most(Floor(readable, max), Floor(off + readable, g.bsize) - off)
  }

  /** How many bytes reach the file. */
  function Copied(g: Geo, size: nat, off: nat, len: nat, readable: nat, max: nat): nat {
    if off > size then 0 else Least(readable, Accepted(g, off, len, max))
  }

  function Most(a: int, b: int): int { if a < b then b else a }

  /** at is q pieces of max bytes. */
  predicate Pieces(at: nat, q: nat, max: nat) { at == q * max }

  lemma NoPieces(max: nat)
    ensures Pieces(0, 0, max)
  {
  }

  lemma NextPiece(at: nat, q: nat, max: nat)
    ensures Pieces(at, q, max) ==> Pieces(at + max, q + 1, max)
  {
  }

  lemma StopsHere(g: Geo, size: nat, off: nat, len: nat, readable: nat, max: nat, at: nat, q: nat, n1: nat)
    requires g.bsize > 0 && max > 0 && Pieces(at, q, max) && at < len && at <= readable && n1 == Least(max, len - at)
    requires at > 0 ==> off <= size && off + at <= Limit(g)
    requires off <= size && off + at + n1 <= Limit(g) ==> readable < at + n1
    ensures off > size || off + at + n1 > Limit(g) ==>
      Moved(g, size, off, len, readable, max) == at == Copied(g, size, off, len, readable, max)
    ensures off <= size && off + at + n1 <= Limit(g) ==>
      && Moved(g, size, off, len, readable, max) == at + Reported(g.bsize, off + at, n1, readable - at)
      && Copied(g, size, off, len, readable, max) == readable
  {
    AcceptedHere(g, off, len, max, q, n1);
    hide Accepted, Limit;
    if off <= size && off + at + n1 <= Limit(g) {
      assert readable < at + max;
      QuotientOf(readable, max, q, readable - at);
    }
  }

  lemma AcceptedHere(g: Geo, off: nat, len: nat, max: nat, q: nat, n1: nat)
    requires max > 0 && q * max < len && n1 == Least(max, len - q * max) && (q > 0 ==> off + q * max <= Limit(g))
    ensures off + q * max + n1 > Limit(g) ==> Accepted(g, off, len, max) == q * max
    ensures off + q * max + n1 <= Limit(g) ==> Accepted(g, off, len, max) >= q * max + n1
  {
    var l, at := Limit(g), q * max;
    hide Limit;
    if off + len > l && off <= l {
      if off + at + n1 > l {
        QuotientOf(l - off, max, q, l - off - at);
      } else {
        assert at + max == (q + 1) * max;
        QuotientAtLeast(l - off, max, q + 1);
      }
    }
  }

  lemma QuotientAtLeast(x: nat, m: nat, q: nat)
    requires m > 0 && q * m <= x
    ensures x / m * m >= q * m
  {
    if x / m < q { MulMono(x / m + 1, q, m); }
  }

  lemma EndsHere(g: Geo, size: nat, off: nat, len: nat, readable: nat, max: nat)
    requires g.bsize > 0 && max > 0 && readable >= len && (len > 0 ==> off <= size && off + len <= Limit(g))
    ensures Moved(g, size, off, len, readable, max) == len == Copied(g, size, off, len, readable, max)
  {
  }

  /** Until a piece is refused the file reaches at least to where the next piece starts. */
  lemma SizeNow(g: Geo, s: State, i: nat, c: seq<byte>, off: nat, src: seq<byte>, at: nat)
    requires FileHas(g, s, i, c, off, src, at, at)
    ensures off + at <= s.inodes[i].size <==> off <= |c|
  {
    hide Content;
    ContentSize(g, s, i);
  }

  lemma HasNothing(g: Geo, s: State, i: nat, off: nat, src: seq<byte>)
    requires Shape(g, s) && i in s.inodes
    ensures FileHas(g, s, i, Content(g, s, i), off, src, 0, 0)
  {
    hide Content;
    var c := Content(g, s, i);
    if off <= |c| { OverlayNothing(c, off); }
  }

  lemma OverlayNothing(c: seq<byte>, off: nat)
    requires off <= |c|
    ensures Overlay(c, off, [], off) == c
  {
  }

  /** The result of writei, carried over to the whole request. */
  lemma HasMore(g: Geo, s: State, t: State, i: nat, c: seq<byte>, off: nat, src: seq<byte>, at: nat, n1: nat, bs: seq<byte>, r: int, readable: nat, copied: nat)
    requires FileHas(g, s, i, c, off, src, at, at) && Shape(g, t) && i in t.inodes && at + n1 <= |src| && n1 > 0 && bs == src[at..at + n1]
    requires r == -1 ==> t == s && copied == at
    requires r != -1 ==>
      && 0 <= r <= n1 && off + at <= s.inodes[i].size && (r < n1 ==> r <= readable < n1) && copied == (if r == n1 then at + n1 else at + readable)
      && Content(g, t, i) == Overlay(Content(g, s, i), off + at, bs[..if r == n1 then r else readable], off + at + r)
    ensures FileHas(g, t, i, c, off, src, at + (if r > 0 then r else 0), copied)
  {
    hide Content, Overlay;
    ContentSize(g, s, i);
    if r != -1 {
      OverlayMore(c, off, src[..at], src[at..copied], r);
      assert src[..at] + src[at..copied] == src[..copied];
      assert bs[..copied - at] == src[at..copied];
    }
  }

  /** Two writes one after the other are one write, also when the second reports only r bytes. */
  lemma OverlayMore(c: seq<byte>, off: nat, a: seq<byte>, b: seq<byte>, r: nat)
    requires off <= |c| && r <= |b|
    ensures Overlay(Overlay(c, off, a, off + |a|), off + |a|, b, off + |a| + r) == Overlay(c, off, a + b, off + |a| + r)
  {
  }

  /** c with exactly c[off .. off+|bs|] replaced by bs, and extended if it must be. */
  function Replaced(c: seq<byte>, off: nat, bs: seq<byte>): seq<byte>
    requires off <= |c|
  {
    c[..off] + bs + (if off + |bs| <= |c| then c[off + |bs|..] else [])
  }

  /** A complete write replaces exactly content[off .. off+n] and extends the file if it must. */
  lemma OverlayExact(c: seq<byte>, off: nat, bs: seq<byte>)
    requires off <= |c|
    ensures Overlay(c, off, bs, off + |bs|) == Replaced(c, off, bs)
  {
  }

  function Least(a: nat, b: nat): nat { if a < b then a else b }

  /** What writei reports when the caller's memory yields readable of len bytes: all of them, or those up
      to the last block boundary reached. */
  function Reported(bsize: nat, off: nat, len: nat, readable: nat): (r: nat)
    requires bsize > 0
    ensures r <= Least(readable, len) && (r == len <==> readable >= len)
  {
    if readable >= len then len
    else
      assert off + readable == (off + readable) / bsize * bsize + (off + readable) % bsize;
      if (off + readable) / bsize * bsize > off then (off + readable) / bsize * bsize - off else 0
  }

  /** The bytes copied past the reported ones are past the end of the file or repeat what was there. */
  predicate Unspilled(c: seq<byte>, off: nat, src: seq<byte>, readable: nat, bsize: nat)
    requires bsize > 0
  {
    forall x :: off + Reported(bsize, off, |src|, readable) <= x < off + Least(readable, |src|) && x < |c| ==> src[x - off] == c[x]
  }

  /** The file that writei leaves is the promised one exactly if nothing was spilled. */
  lemma InterruptedWrite(c: seq<byte>, off: nat, src: seq<byte>, readable: nat, bsize: nat)
    requires off <= |c| && bsize > 0
    ensures var r := Reported(bsize, off, |src|, readable);
      Overlay(c, off, src[..Least(readable, |src|)], off + r) == Replaced(c, off, src[..r]) <==> Unspilled(c, off, src, readable, bsize)
  {
    var r, n := Reported(bsize, off, |src|, readable), Least(readable, |src|);
    hide Reported;
    OverlayExact(c, off, src[..r]);
    var p, q := Overlay(c, off, src[..n], off + r), Overlay(c, off, src[..r], off + r);
    if p == q {
      forall x | off + r <= x < off + n && x < |c| ensures src[x - off] == c[x] {
        assert p[x] == src[x - off] && q[x] == c[x];
      }
    }
  }

  /** A caller can tell from the numbers alone: a write is exact for every file of this size and every
      source exactly if all of it is readable, or the readable part ends at a block boundary, or the
      block it ends in starts at or past the end of the file. */
  lemma ExactForAll(size: nat, off: nat, len: nat, readable: nat, bsize: nat)
    requires off <= size && bsize > 0
    ensures (forall c, src: seq<byte> :: |c| == size && |src| == len ==> Unspilled(c, off, src, readable, bsize)) <==>
      readable >= len || (off + readable) % bsize == 0 || readable == 0 || off == size || (off + readable) / bsize * bsize >= size
  {
    var r := Reported(bsize, off, len, readable);
    ReportedAll(bsize, off, len, readable);
    ReportedPast(bsize, off, len, readable, size);
    var safe := readable >= len || r == readable || off + r >= size;
    hide Reported;
    if safe {
      forall c, src: seq<byte> | |c| == size && |src| == len ensures Unspilled(c, off, src, readable, bsize) { }
    } else {
      var c, src := seq<byte>(size, _ => 0), seq<byte>(len, _ => 1);
      assert src[off + r - off] != c[off + r];
      assert !Unspilled(c, off, src, readable, bsize);
    }
  }

  /** Everything readable is reported exactly if it ends at a block boundary (or is nothing). */
  lemma ReportedAll(bsize: nat, off: nat, len: nat, readable: nat)
    requires bsize > 0
    ensures readable < len ==> (Reported(bsize, off, len, readable) == readable <==> (off + readable) % bsize == 0 || readable == 0)
  {
    var e := off + readable;
    assert e == e / bsize * bsize + e % bsize;
  }

  lemma ReportedPast(bsize: nat, off: nat, len: nat, readable: nat, size: nat)
    requires bsize > 0 && off <= size
    ensures readable < len ==> (off + Reported(bsize, off, len, readable) >= size <==> off == size || (off + readable) / bsize * bsize >= size)
  {
  }

  /** A write that stops in the round at tot reports tot. */
  lemma ReportedHere(g: Geo, c: Count, off: nat, tot: nat, len: nat, readable: nat)
    requires g.bsize > 0 && tot < len && CountPos(g, c, off, tot, len) && tot <= readable < tot + Chunk(g, len - tot, off + tot)
    ensures Reported(g.bsize, off, len, readable) == tot
  {
    hide Reported;
    assert tot == 0 || (off + tot) % g.bsize == 0 by { OnBoundary(g, c, off, tot, len); }
    assert (off + tot) % g.bsize + Chunk(g, len - tot, off + tot) <= g.bsize by { WithinIs(g, off + tot); }
    hide CountPos, Chunk, Within;
    ReportedStop(g.bsize, off, tot, len, readable);
  }

  lemma OnBoundary(g: Geo, c: Count, off: nat, tot: nat, len: nat)
    requires CountPos(g, c, off, tot, len) && tot < len
    ensures tot == 0 || (off + tot) % g.bsize == 0
  {
    if c.pieces > 0 { QuotientOf(off + tot, g.bsize, off / g.bsize + c.pieces, 0); }
  }

  lemma ReportedStop(b: nat, off: nat, tot: nat, len: nat, readable: nat)
    requires b > 0 && tot <= readable < len && (tot == 0 || (off + tot) % b == 0) && (off + tot) % b + (readable - tot) < b
    ensures Reported(b, off, len, readable) == tot
  {
    var q, r := (off + tot) / b, (off + tot) % b;
    assert off + tot == q * b + r;
    QuotientOf(off + readable, b, q, r + (readable - tot));
    FloorIs(b, off, tot, len, readable, q, r);
  }

  lemma FloorIs(b: nat, off: nat, tot: nat, len: nat, readable: nat, q: nat, r: nat)
    requires b > 0 && tot <= readable < len && off + tot == q * b + r && (off + readable) / b == q && (tot == 0 || r == 0)
    ensures Reported(b, off, len, readable) == tot
  {
  }

  /** A disk with blocks of two bytes and one file. */
  const SmallDisk: Geo := Geo(1, 1, 2, false, 24, 2, 32, 0, 8, 1, 1)

  lemma SmallOk()
    ensures SmallDisk.Ok() && SmallDisk.MaxFile() == 2
  {
  }

  /** The data blocks in use are among those logged. */
  ghost predicate TakenLogged(bm: seq<bool>, l: set<int>) { |bm| == 24 && forall b :: 2 <= b < 24 && bm[b] ==> b in l }

  lemma CoveredTaken(g: Geo, s: State, t: State, i: nat, l: set<int>, l': set<int>, loose: set<int>)
    requires Covered(g, s, t, i, l, l', loose) && TakenLogged(s.bitmap, l)
    ensures TakenLogged(t.bitmap, l')
  {
  }

  /** Two small writes cannot fill the small disk. */
  lemma StillRoom(bm: seq<bool>, l: set<int>)
    requires TakenLogged(bm, l) && |l| <= 12
    ensures !Full(bm)
  {
    if Full(bm) {
      var taken := {2, 3, 4, 5, 6, 7, 8, 9, 10, 11, 12, 13, 14};
      SubsetSize(taken, l);
    }
  }

  lemma FillValue()
    ensures Reported(2, 0, 2, 2) == 2 && Least(2, 2) == 2 && Overlay([], 0, [7, 7][..2], 2) == [7, 7]
  {
    var q: seq<byte> := Overlay([], 0, [7, 7][..2], 2);
    assert |q| == 2 && q[0] == 7 && q[1] == 7;
  }

  /** A real file that holds [7, 7]. */
  method SmallFile() returns (d: Disk)
    ensures fresh(d) && d.Valid() && d.g == SmallDisk && 0 in d.inodes && Content(d.g, d.S(), 0) == [7, 7]
    ensures TakenLogged(d.bitmap, d.logged) && |d.logged| <= 6
  {
    hide Inv, Content, Owned, Full, Covered, Unspilled, Replaced, Overlay, Reported, Least, Shape;
    SmallOk();
    d := new Disk(SmallDisk, {0});
    InvOwned(d.g, d.S());
    ContentSize(d.g, d.S(), 0);
    FillValue();
    ghost var s, ok, r := d.S(), true, 0;
    ok, r := d.Writei(0, 0, [7, 7], 2, 1);
    assert d.logged - {} == d.logged;
    CoveredTaken(d.g, s, d.S(), 0, {}, d.logged, Loose(d.g, d.S(), 0, 0, r, false));
    StillRoom(d.bitmap, d.logged);
    assert Content(d.g, d.S(), 0) == [7, 7];
  }

  /** writei on such a file: [7, 7] is overwritten by a source of two bytes of which one is readable.
      Nothing is reported as written, and the file has changed. */
  method InterruptedWriteSpills(d: Disk) returns (r: int)
    requires d.Valid() && d.g == SmallDisk && 0 in d.inodes && Content(d.g, d.S(), 0) == [7, 7]
    requires TakenLogged(d.bitmap, d.logged) && |d.logged| <= 6
    modifies d
    ensures d.Valid() && 0 in d.inodes && r == 0
    ensures old(Content(d.g, d.S(), 0)) == [7, 7] && Content(d.g, d.S(), 0) == [1, 7]
  {
    hide Inv, Content, Owned, Full, Covered, Unspilled, Replaced, Overlay, Reported, Least, Loose, TakenLogged, Shape;
    SmallOk();
    InvOwned(d.g, d.S());
    ContentSize(d.g, d.S(), 0);
    SpillValue();
    ghost var s, l := d.S(), d.logged;
    var ok;
    ok, r := d.Writei(0, 0, [1, 2], 1, 1);
    CoveredTaken(d.g, s, d.S(), 0, l, d.logged, Loose(d.g, d.S(), 0, 0, r, ok));
    SizeSum(l, d.logged);
    StillRoom(d.bitmap, d.logged);
    assert Content(d.g, d.S(), 0) == [1, 7];
  }

  lemma SpillValue()
    ensures Reported(2, 0, 2, 1) == 0 && Least(1, 2) == 1 && Overlay([7, 7], 0, [1, 2][..1], 0) == [1, 7]
  {
    var q: seq<byte> := Overlay([7, 7], 0, [1, 2][..1], 0);
    assert |q| == 2 && q[0] == 1 && q[1] == 7;
  }

  lemma SizeSum(a: set<int>, b: set<int>)
    ensures |b| <= |a| + |b - a|
  {
    SubsetSize(b, a + (b - a));
  }

  // ---------------------------------------------------------------- the write loop

  lemma WrittenNothing(g: Geo, s: State, i: nat, off: nat, src: seq<byte>)
    requires Inv(g, s) && i in s.inodes
    ensures Written(g, s, s, i, off, src[..0])
  {
    hide Addr, Owned, ByteAt;
  }

  lemma PosInFile(g: Geo, pos: nat, end: nat)
    requires g.Ok() && pos < end <= g.MaxFile() * g.bsize
    ensures pos / g.bsize < g.MaxFile()
  {
    DivBound(pos, g.bsize, g.MaxFile());
  }

  /** One more piece of src has been stored, or the allocator failed and nothing moved. */
  lemma PutResult(g: Geo, s: State, t: State, u: State, i: nat, off: nat, src: seq<byte>, tot: nat, upto: nat, a: nat)
    requires tot <= upto <= |src| && Written(g, s, t, i, off, src[..tot])
    requires a != 0 ==> Written(g, t, u, i, off + tot, src[tot..upto])
    requires a == 0 ==> Extends(g, t, u)
    ensures a != 0 ==> Written(g, s, u, i, off, src[..upto])
    ensures a == 0 ==> Written(g, s, u, i, off, src[..tot])
  {
    hide Addr, ByteAt, Mapped;
    if a != 0 {
      forall j, x | j in s.inodes && x >= 0 && (Mapped(g, s, j, x) || (j == i && off <= x < off + upto))
        ensures Mapped(g, u, j, x)
        ensures ByteAt(g, u, j, x) == if j == i && off <= x < off + upto then src[..upto][x - off] else ByteAt(g, s, j, x)
      {
        assert Mapped(g, t, j, x) || (j == i && off + tot <= x < off + upto);
      }
    } else {
      forall j, x | j in s.inodes && x >= 0 && (Mapped(g, s, j, x) || (j == i && off <= x < off + tot))
        ensures Mapped(g, u, j, x) && ByteAt(g, u, j, x) == ByteAt(g, t, j, x)
      {
        assert Mapped(g, t, j, x);
        ExtendsMapped(g, t, u, j, x);
      }
    }
  }

  lemma OtherContents(g: Geo, s: State, t: State, i: nat, off: nat, bs: seq<byte>)
    requires Inv(g, s) && Written(g, s, t, i, off, bs)
    ensures forall j :: j in s.inodes && j != i ==> Content(g, t, j) == Content(g, s, j)
  {
    hide Addr, Owned, ByteAt, Mapped;
    forall j | j in s.inodes && j != i ensures Content(g, t, j) == Content(g, s, j) {
      forall x | 0 <= x < s.inodes[j].size ensures ByteAt(g, t, j, x) == ByteAt(g, s, j, x) {
        SizeMapped(g, s, j, x);
      }
    }
  }

  /** The file after the loop and the update of its size. */
  lemma WrittenContent(g: Geo, s: State, t: State, u: State, i: nat, off: nat, bs: seq<byte>, upto: nat)
    requires Inv(g, s) && Inv(g, t) && Written(g, s, t, i, off, bs) && off <= s.inodes[i].size
    requires off <= upto <= off + |bs| && upto <= g.MaxFile() * g.bsize
    requires u == if upto > t.inodes[i].size then t.(inodes := t.inodes[i := t.inodes[i].(size := upto)]) else t
    ensures Inv(g, u) && Content(g, u, i) == Overlay(Content(g, s, i), off, bs, upto)
    ensures forall j :: j in s.inodes && j != i ==> Content(g, u, j) == Content(g, s, j)
  {
    hide Inv, Addr, Owned, ByteAt, Mapped, Content;
    InvOwned(g, s);
    InvOwned(g, t);
    if upto > t.inodes[i].size {
      WrittenTail(g, s, t, i, off, bs, upto);
      ResizeKeeps(g, t, i, upto);
    }
    InvOwned(g, u);
    WrittenThis(g, s, t, u, i, off, bs, upto);
    OtherContents(g, s, t, i, off, bs);
    forall j | j in s.inodes && j != i ensures Content(g, u, j) == Content(g, t, j) { SameContent(g, t, u, j); }
  }

  lemma WrittenTail(g: Geo, s: State, t: State, i: nat, off: nat, bs: seq<byte>, upto: nat)
    requires Written(g, s, t, i, off, bs) && off <= s.inodes[i].size && upto <= off + |bs|
    ensures forall x :: t.inodes[i].size <= x < upto ==> Mapped(g, t, i, x)
  {
    hide Addr, ByteAt, Mapped;
  }

  lemma WrittenThis(g: Geo, s: State, t: State, u: State, i: nat, off: nat, bs: seq<byte>, upto: nat)
    requires Inv(g, s) && Shape(g, s) && Written(g, s, t, i, off, bs) && off <= s.inodes[i].size && off <= upto <= off + |bs|
    requires u == if upto > t.inodes[i].size then t.(inodes := t.inodes[i := t.inodes[i].(size := upto)]) else t
    ensures Shape(g, u) && Content(g, u, i) == Overlay(Content(g, s, i), off, bs, upto)
  {
    hide Inv, Addr, Owned, ByteAt, Mapped;
    assert t.inodes[i].size == s.inodes[i].size;
    var c, o := Content(g, u, i), Overlay(Content(g, s, i), off, bs, upto);
    assert |c| == |o|;
    forall x | 0 <= x < |c| ensures c[x] == o[x] {
      SizeByte(g, t, u, i, x);
      if x < s.inodes[i].size { MappedBelow(g, s, i, x); }
    }
  }

  lemma SameContent(g: Geo, t: State, u: State, j: nat)
    requires Shape(g, t) && Shape(g, u) && u.blocks == t.blocks && j in t.inodes && j in u.inodes && u.inodes[j] == t.inodes[j]
    ensures Content(g, u, j) == Content(g, t, j)
  {
    hide Addr, ByteAt;
    forall x | 0 <= x < t.inodes[j].size ensures ByteAt(g, u, j, x) == ByteAt(g, t, j, x) { SizeByte(g, t, u, j, x); }
  }

  lemma MappedBelow(g: Geo, s: State, i: nat, x: nat)
    requires Inv(g, s) && i in s.inodes && x < s.inodes[i].size
    ensures Mapped(g, s, i, x)
  {
    SizeMapped(g, s, i, x);
  }

  /** Sizes do not matter for the bytes behind the slots. */
  lemma SizeByte(g: Geo, t: State, u: State, j: nat, x: nat)
    requires Shape(g, t) && Shape(g, u) && u.blocks == t.blocks && j in t.inodes && j in u.inodes
    requires u.inodes[j].addrs == t.inodes[j].addrs
    ensures ByteAt(g, u, j, x) == ByteAt(g, t, j, x)
  {
    hide Addr;
    AddrSame(g, t.blocks, t.inodes[j], u.inodes[j], DataSlot(g, x / g.bsize));
  }

  // ---------------------------------------------------------------- counting logged blocks

  /** What a single-indirect write has logged: data blocks, the index block, bitmap blocks; and how
      many pieces it wrote and how many data and index blocks it allocated. */
  datatype Count = Count(data: set<int>, index: set<int>, bits: set<int>, pieces: nat, newData: nat, newInd: nat)

  ghost function Counted(g: Geo, c: Count, a: nat, ind: nat, x: bool, y: bool, viaInd: bool): Count
    requires g.bpb > 0
  {
    Count(c.data + {a}, c.index + (if (x && viaInd) || y then {ind} else {}),
          c.bits + (if x then {g.Bblock(a)} else {}) + (if y then {g.Bblock(ind)} else {}),
          c.pieces + 1, c.newData + (if x then 1 else 0), c.newInd + (if y then 1 else 0))
  }

  ghost predicate CountSets(g: Geo, t: State, i: nat, c: Count, off: nat) {
    g.bsize > 0 && i in t.inodes && (!g.dbl ==>
      var ind := Addr(g, t.blocks, t.inodes[i], Ind);
      && |c.data| <= c.pieces && c.index <= {ind} && (ind == 0 ==> c.index == {} && c.newInd == 0)
      && |c.bits| <= c.newData + c.newInd && c.newInd <= 1
      && c.newData <= c.pieces && (off % g.bsize != 0 && c.pieces > 0 ==> c.newData < c.pieces))
  }

  /** Between pieces the position is on a block boundary. */
  ghost predicate CountPos(g: Geo, c: Count, off: nat, tot: nat, len: nat) {
    g.bsize > 0 && (c.pieces == 0 ==> tot == 0)
    && (c.pieces > 0 && tot < len ==> off + tot == (off / g.bsize + c.pieces) * g.bsize)
  }

  /** A request of fits blocks touches at most fits + 1 blocks, and then starts inside a block. */
  ghost predicate CountFits(g: Geo, c: Count, off: nat, len: nat, fits: nat) {
    g.bsize > 0 && (len <= fits * g.bsize ==> c.pieces <= fits + 1 && (c.pieces == fits + 1 ==> off % g.bsize != 0))
  }

  lemma CountStart(g: Geo, s: State, i: nat, off: nat, len: nat, fits: nat)
    requires Shape(g, s) && i in s.inodes
    ensures CountSets(g, s, i, Count({}, {}, {}, 0, 0, 0), off) && CountPos(g, Count({}, {}, {}, 0, 0, 0), off, 0, len)
    ensures CountFits(g, Count({}, {}, {}, 0, 0, 0), off, len, fits)
  {
    hide Addr;
  }

  lemma LoggedNext(g: Geo, l0: set<int>, l: set<int>, l': set<int>, c: Count, a: nat, ind: nat, x: bool, y: bool, viaInd: bool)
    requires g.bpb > 0 && (!g.dbl ==> l <= l0 + c.data + c.index + c.bits && l' <= l + {a} + Touched(g, a, ind, x, y, viaInd))
    ensures var c' := Counted(g, c, a, ind, x, y, viaInd); !g.dbl ==> l' <= l0 + c'.data + c'.index + c'.bits
  {
  }

  /** An unaligned offset lies in a block that exists already. */
  lemma FirstExists(g: Geo, s: State, i: nat, off: nat)
    requires Inv(g, s) && i in s.inodes && off <= s.inodes[i].size && off % g.bsize != 0
    ensures Mapped(g, s, i, off)
  {
    hide Addr, Owned, Inv, NoHoles, DataSlot, Geo.MaxFile;
    InvOwned(g, s);
    PrevSameBlock(off, g.bsize);
    MappedBelow(g, s, i, off - 1);
  }

  lemma PrevSameBlock(x: nat, d: nat)
    requires d > 0 && x % d != 0
    ensures x > 0 && (x - 1) / d == x / d
  {
    assert x == x / d * d + x % d;
    assert x > 0;
    QuotientOf(x - 1, d, x / d, x % d - 1);
  }

  lemma CountNext(g: Geo, s: State, t: State, u: State, i: nat, c: Count, off: nat, tot: nat, src: seq<byte>, a: nat, x: bool, y: bool, fits: nat)
    requires g.Ok() && i in s.inodes && i in t.inodes && i in u.inodes && off <= s.inodes[i].size && tot < |src| && KeepsInd(g, t, u, i)
    requires Written(g, s, t, i, off, src[..tot])
    requires CountSets(g, t, i, c, off) && CountPos(g, c, off, tot, |src|) && CountFits(g, c, off, |src|, fits)
    requires x ==> Addr(g, t.blocks, t.inodes[i], DataSlot(g, (off + tot) / g.bsize)) == 0
    requires y ==> Addr(g, t.blocks, t.inodes[i], Ind) == 0 && Addr(g, u.blocks, u.inodes[i], Ind) != 0
    requires (x || y) && (off + tot) / g.bsize >= g.nd && !g.dbl ==> Addr(g, u.blocks, u.inodes[i], Ind) != 0
    requires Inv(g, s)
    ensures var c' := Counted(g, c, a, Addr(g, u.blocks, u.inodes[i], Ind), x, y, (off + tot) / g.bsize >= g.nd);
      && CountSets(g, u, i, c', off) && CountPos(g, c', off, tot + Chunk(g, |src| - tot, off + tot), |src|)
      && CountFits(g, c', off, |src|, fits)
  {
    hide Inv, Addr, Owned, ByteAt, Written, Chunk, Within, CountPos, CountFits, CountSets, Mapped, Counted, KeepsInd;
    InvOwned(g, s);
    var n := (off + tot) / g.bsize;
    var ind := Addr(g, u.blocks, u.inodes[i], Ind);
    var c' := Counted(g, c, a, ind, x, y, n >= g.nd);
    OnePiece(g, c, a, ind, x, y, n >= g.nd);
    if off % g.bsize != 0 && c.pieces == 0 {
      StartPos(g, c, off, tot, |src|);
      FirstExists(g, s, i, off);
      WrittenMapped(g, s, t, i, off, src[..tot], off);
    }
    PiecesNext(g, c, c', off, tot, |src|);
    FitsNext(g, c, c', off, tot, |src|, fits);
    SetsKept(g, t, u, i, c, off, a, x, y, n >= g.nd);
  }

  lemma StartPos(g: Geo, c: Count, off: nat, tot: nat, len: nat)
    requires CountPos(g, c, off, tot, len) && c.pieces == 0
    ensures tot == 0
  {
  }

  lemma OnePiece(g: Geo, c: Count, a: nat, ind: nat, x: bool, y: bool, viaInd: bool)
    requires g.bpb > 0
    ensures Counted(g, c, a, ind, x, y, viaInd).pieces == c.pieces + 1
  {
  }

  lemma SetsKept(g: Geo, t: State, u: State, i: nat, c: Count, off: nat, a: nat, x: bool, y: bool, viaInd: bool)
    requires g.bpb > 0 && CountSets(g, t, i, c, off) && KeepsInd(g, t, u, i)
    requires y ==> Addr(g, t.blocks, t.inodes[i], Ind) == 0 && Addr(g, u.blocks, u.inodes[i], Ind) != 0
    requires (x || y) && viaInd && !g.dbl ==> Addr(g, u.blocks, u.inodes[i], Ind) != 0
    requires off % g.bsize != 0 && c.pieces == 0 ==> !x
    ensures CountSets(g, u, i, Counted(g, c, a, Addr(g, u.blocks, u.inodes[i], Ind), x, y, viaInd), off)
  {
    hide Addr;
    SetsNext(g, c, a, Addr(g, u.blocks, u.inodes[i], Ind), x, y, viaInd);
  }

  lemma WrittenMapped(g: Geo, s: State, t: State, i: nat, off: nat, bs: seq<byte>, x: nat)
    requires Written(g, s, t, i, off, bs) && Mapped(g, s, i, x)
    ensures Addr(g, t.blocks, t.inodes[i], DataSlot(g, x / g.bsize)) != 0
  {
    hide Addr, ByteAt;
    assert Mapped(g, t, i, x);
  }

  lemma SetsNext(g: Geo, c: Count, a: nat, ind: nat, x: bool, y: bool, viaInd: bool)
    requires g.bpb > 0
    ensures var c' := Counted(g, c, a, ind, x, y, viaInd);
      && |c'.data| <= |c.data| + 1
      && |c'.bits| <= |c.bits| + (if x then 1 else 0) + (if y then 1 else 0)
      && c'.index <= c.index + {ind} && (!(x && viaInd) && !y ==> c'.index == c.index)
  {
    assert |c.data + {a}| <= |c.data| + 1;
    var b1 := c.bits + (if x then {g.Bblock(a)} else {});
    assert |b1| <= |c.bits| + (if x then 1 else 0);
    assert y ==> |b1 + {g.Bblock(ind)}| <= |b1| + 1;
    assert c.index + {} == c.index;
  }

  lemma PiecesNext(g: Geo, c: Count, c': Count, off: nat, tot: nat, len: nat)
    requires CountPos(g, c, off, tot, len) && tot < len && c'.pieces == c.pieces + 1
    ensures CountPos(g, c', off, tot + Chunk(g, len - tot, off + tot), len)
  {
    var m := Chunk(g, len - tot, off + tot);
    if tot + m < len {
      var pos := off + tot;
      assert pos % g.bsize + m == g.bsize by { assert Within(g, pos) == pos % g.bsize; }
      assert pos == pos / g.bsize * g.bsize + pos % g.bsize;
      assert pos + m == (pos / g.bsize + 1) * g.bsize;
      if c.pieces > 0 { QuotientOf(pos, g.bsize, off / g.bsize + c.pieces, 0); }
    }
  }

  lemma FitsNext(g: Geo, c: Count, c': Count, off: nat, tot: nat, len: nat, fits: nat)
    requires CountPos(g, c, off, tot, len) && CountFits(g, c, off, len, fits) && tot < len && c'.pieces == c.pieces + 1
    ensures CountFits(g, c', off, len, fits)
  {
    if len <= fits * g.bsize && c.pieces > 0 {
      var q, r, k := off / g.bsize, off % g.bsize, c.pieces;
      assert off == q * g.bsize + r;
      assert (q + k) * g.bsize == q * g.bsize + k * g.bsize;
      assert k * g.bsize < fits * g.bsize + r;
      assert (fits + 1) * g.bsize == fits * g.bsize + g.bsize;
      MulStrict(fits, k, g.bsize);
      assert k == fits ==> k * g.bsize == fits * g.bsize;
    } else if len <= fits * g.bsize {
      assert fits != 0 by { assert 0 * g.bsize == 0; }
    }
  }

  /** At most fits + 1 data blocks, one index block, fits + 1 bitmap blocks and the inode block. */
  lemma LogBound(g: Geo, t: State, i: nat, c: Count, off: nat, len: nat, fits: nat, l0: set<int>, l: set<int>, last: int)
    requires CountSets(g, t, i, c, off) && CountFits(g, c, off, len, fits)
    requires !g.dbl ==> l <= l0 + c.data + c.index + c.bits
    ensures !g.dbl && len <= fits * g.bsize ==> |l + {last} - l0| <= 2 * fits + 4 && |l - l0| <= 2 * fits + 4
  {
    hide Addr;
    if !g.dbl && len <= fits * g.bsize {
      var ind := Addr(g, t.blocks, t.inodes[i], Ind);
      SubsetSize(c.index, {ind});
      var all := c.data + c.index + c.bits + {last};
      assert |c.data + c.index| <= |c.data| + |c.index|;
      assert |c.data + c.index + c.bits| <= |c.data + c.index| + |c.bits|;
      assert |all| <= |c.data + c.index + c.bits| + 1;
      SubsetSize(l + {last} - l0, all);
      SubsetSize(l - l0, all);
    }
  }

  /** c with bs laid over it from off on; the file ends at the larger of its old end and upto, and
      bytes of bs past that are not visible. */
  function Overlay(c: seq<byte>, off: nat, bs: seq<byte>, upto: nat): seq<byte> {
    seq<byte>(if upto > |c| then upto else |c|, x =>
      if off <= x < off + |bs| then bs[x - off] else if 0 <= x < |c| then c[x] else 0)
  }

  /** The slot for the single-indirect block only goes from empty to filled. */
  ghost predicate KeepsInd(g: Geo, s: State, t: State, i: nat) {
    i in s.inodes && i in t.inodes
    && (Addr(g, s.blocks, s.inodes[i], Ind) != 0 ==> Addr(g, t.blocks, t.inodes[i], Ind) == Addr(g, s.blocks, s.inodes[i], Ind))
  }

  /** t is s with bs stored at offset off of file i: bytes that had a block keep it and, outside the
      range, keep their value, in this file and in every other. Sizes are unchanged. */
  ghost predicate Written(g: Geo, s: State, t: State, i: nat, off: nat, bs: seq<byte>) {
    && Shape(g, s) && Shape(g, t) && t.inodes.Keys == s.inodes.Keys && i in s.inodes
    && (forall j :: j in s.inodes ==> t.inodes[j].size == s.inodes[j].size)
    && forall j, x :: j in s.inodes && x >= 0 && (Mapped(g, s, j, x) || (j == i && off <= x < off + |bs|)) ==>
         && Mapped(g, t, j, x)
         && ByteAt(g, t, j, x) == if j == i && off <= x < off + |bs| then bs[x - off] else ByteAt(g, s, j, x)
  }

  lemma ExtendsInd(g: Geo, s: State, t: State, i: nat)
    requires Extends(g, s, t) && i in s.inodes
    ensures KeepsInd(g, s, t, i)
  {
    hide Addr, ByteAt;
    assert SlotOk(g, Ind);
  }

  lemma PutInd(g: Geo, s: State, i: nat, n: nat, d: seq<byte>)
    requires Inv(g, s) && i in s.inodes && n < g.MaxFile() && 0 < Addr(g, s.blocks, s.inodes[i], DataSlot(g, n)) < g.blocks
    ensures var t := PutBlock(g, s, Addr(g, s.blocks, s.inodes[i], DataSlot(g, n)), d);
      && Addr(g, t.blocks, t.inodes[i], Ind) == Addr(g, s.blocks, s.inodes[i], Ind)
      && Addr(g, t.blocks, t.inodes[i], DataSlot(g, n)) == Addr(g, s.blocks, s.inodes[i], DataSlot(g, n))
  {
    hide Addr, Owned;
    DataSlotOk(g, n);
    PutAddr(g, s, i, n, d, i, Ind);
    PutAddr(g, s, i, n, d, i, DataSlot(g, n));
  }

  lemma BlockReady(g: Geo, s: State, i: nat, n: nat)
    requires Inv(g, s) && i in s.inodes && n < g.MaxFile() && Addr(g, s.blocks, s.inodes[i], DataSlot(g, n)) != 0
    ensures var a := Addr(g, s.blocks, s.inodes[i], DataSlot(g, n));
      a < g.blocks && a < |s.blocks| && |BytesOf(g, s.blocks[a])| == g.bsize
  {
    hide Addr;
    DataSlotOk(g, n);
    KindAt(g, s, i, DataSlot(g, n));
  }

  lemma PutWritten(g: Geo, s: State, t: State, i: nat, off: nat, bs: seq<byte>, d': seq<byte>)
    requires Extends(g, s, t) && Inv(g, t) && i in s.inodes && off / g.bsize < g.MaxFile() && off % g.bsize + |bs| <= g.bsize
    requires 0 < Addr(g, t.blocks, t.inodes[i], DataSlot(g, off / g.bsize)) < g.blocks
    requires var d := BytesOf(g, t.blocks[Addr(g, t.blocks, t.inodes[i], DataSlot(g, off / g.bsize))]);
      |d| == g.bsize && d' == d[..off % g.bsize] + bs + d[off % g.bsize + |bs|..]
    ensures Written(g, s, PutBlock(g, t, Addr(g, t.blocks, t.inodes[i], DataSlot(g, off / g.bsize)), d'), i, off, bs)
  {
    hide Addr, Owned, ByteAt;
    var n := off / g.bsize;
    var u := PutBlock(g, t, Addr(g, t.blocks, t.inodes[i], DataSlot(g, n)), d');
    assert Shape(g, u);
    forall j, x | j in s.inodes && x >= 0 && (Mapped(g, s, j, x) || (j == i && off <= x < off + |bs|))
      ensures Mapped(g, u, j, x)
      ensures ByteAt(g, u, j, x) == if j == i && off <= x < off + |bs| then bs[x - off] else ByteAt(g, s, j, x)
    {
      if Mapped(g, s, j, x) { ExtendsMapped(g, s, t, j, x); } else { SameBlock(g, off, x, |bs|); }
      PutByte(g, t, i, n, d', j, x);
      if j == i && x / g.bsize == n { InBlock(g, t, i, off, bs, d', x); }
      else if j == i && off <= x < off + |bs| { SameBlock(g, off, x, |bs|); }
    }
  }

  lemma SameBlock(g: Geo, off: nat, x: nat, len: nat)
    requires g.bsize > 0 && off <= x < off + len && off % g.bsize + len <= g.bsize
    ensures x / g.bsize == off / g.bsize && x % g.bsize == off % g.bsize + (x - off)
  {
    var q, r := off / g.bsize, off % g.bsize;
    assert x == q * g.bsize + (r + (x - off));
    QuotientOf(x, g.bsize, q, r + (x - off));
  }

  /** A byte of the rewritten block: from bs inside the range, as before outside. */
  lemma InBlock(g: Geo, t: State, i: nat, off: nat, bs: seq<byte>, d': seq<byte>, x: nat)
    requires Shape(g, t) && i in t.inodes && x / g.bsize == off / g.bsize && off % g.bsize + |bs| <= g.bsize
    requires Addr(g, t.blocks, t.inodes[i], DataSlot(g, off / g.bsize)) < g.blocks
    requires var d := BytesOf(g, t.blocks[Addr(g, t.blocks, t.inodes[i], DataSlot(g, off / g.bsize))]);
      |d| == g.bsize && d' == d[..off % g.bsize] + bs + d[off % g.bsize + |bs|..]
    ensures d'[x % g.bsize] == if off <= x < off + |bs| then bs[x - off] else ByteAt(g, t, i, x)
  {
    hide Addr;
    assert x == x / g.bsize * g.bsize + x % g.bsize && off == off / g.bsize * g.bsize + off % g.bsize;
  }

  lemma ReadMapped(g: Geo, s: State, i: nat, x: nat)
    requires Inv(g, s) && i in s.inodes && x < s.inodes[i].size
    ensures x / g.bsize < g.MaxFile() && Addr(g, s.blocks, s.inodes[i], DataSlot(g, x / g.bsize)) != 0
  {
    hide Addr, Owned;
    SizeMapped(g, s, i, x);
  }

  /** off % BSIZE */
  function Within(g: Geo, off: nat): nat requires g.bsize > 0 { off % g.bsize }

  /** min(n - tot, BSIZE - off%BSIZE) */
  function Chunk(g: Geo, left: nat, off: nat): (m: nat)
    requires g.bsize > 0
    ensures m <= left && (left > 0 ==> m > 0) && Within(g, off) + m <= g.bsize
    ensures m == left || Within(g, off) + m == g.bsize
  {
    if left < g.bsize - off % g.bsize then left else g.bsize - off % g.bsize
  }

  lemma WithinIs(g: Geo, off: nat)
    requires g.bsize > 0
    ensures Within(g, off) == off % g.bsize
  {
  }

  lemma ContentSize(g: Geo, s: State, i: nat)
    requires Shape(g, s) && i in s.inodes
    ensures |Content(g, s, i)| == s.inodes[i].size
  {
  }

  lemma JoinSlices(c: seq<byte>, off: nat, tot: nat, m: nat)
    requires off + tot + m <= |c|
    ensures c[off..off + tot] + c[off + tot..off + tot + m] == c[off..off + (tot + m)]
  {
  }

  lemma ReadChunk(g: Geo, s: State, i: nat, x: nat, m: nat)
    requires Inv(g, s) && i in s.inodes && x + m <= s.inodes[i].size && m > 0 && Within(g, x) + m <= g.bsize
    ensures var a := Addr(g, s.blocks, s.inodes[i], DataSlot(g, x / g.bsize));
      && a < |s.blocks| && |BytesOf(g, s.blocks[a])| == g.bsize
      && BytesOf(g, s.blocks[a])[Within(g, x)..Within(g, x) + m] == Content(g, s, i)[x..x + m]
  {
    hide Addr, Owned, Content, ByteAt, Within;
    SizeMapped(g, s, i, x);
    ContentSize(g, s, i);
    BlockReady(g, s, i, x / g.bsize);
    var d := BytesOf(g, s.blocks[Addr(g, s.blocks, s.inodes[i], DataSlot(g, x / g.bsize))]);
    var l, r := d[Within(g, x)..Within(g, x) + m], Content(g, s, i)[x..x + m];
    forall k | 0 <= k < m ensures l[k] == r[k] {
      ReadByte(g, s, i, x, m, k, d);
    }
  }

  lemma ReadByte(g: Geo, s: State, i: nat, x: nat, m: nat, k: nat, d: seq<byte>)
    requires Shape(g, s) && i in s.inodes && x + m <= s.inodes[i].size && k < m && Within(g, x) + m <= g.bsize
    requires Addr(g, s.blocks, s.inodes[i], DataSlot(g, x / g.bsize)) < |s.blocks|
    requires d == BytesOf(g, s.blocks[Addr(g, s.blocks, s.inodes[i], DataSlot(g, x / g.bsize))]) && |d| == g.bsize
    ensures Content(g, s, i)[x + k] == d[Within(g, x) + k]
  {
    hide Addr;
    SameBlock(g, x, x + k, m);
  }

  /** Blocks a single-indirect bmap may log. */
  ghost function Touched(g: Geo, addr: nat, ind: nat, newData: bool, newInd: bool, viaInd: bool): set<int>
    requires g.bpb > 0
  {
    (if newData then {addr, g.Bblock(addr)} + (if viaInd then {ind} else {}) else {})
    + (if newInd then {ind, g.Bblock(ind)} else {})
  }

  /** t has everything s has: sizes, mapped slots and the bytes behind them. */
  ghost predicate Extends(g: Geo, s: State, t: State) {
    && Shape(g, s) && Shape(g, t) && t.inodes.Keys == s.inodes.Keys
    && (forall i :: i in s.inodes ==> t.inodes[i].size == s.inodes[i].size)
    && (forall i, sl :: i in s.inodes && SlotOk(g, sl) && Addr(g, s.blocks, s.inodes[i], sl) != 0 ==>
          Addr(g, t.blocks, t.inodes[i], sl) == Addr(g, s.blocks, s.inodes[i], sl))
    && forall i, x :: i in s.inodes && x >= 0 && Mapped(g, s, i, x) ==> ByteAt(g, t, i, x) == ByteAt(g, s, i, x)
  }

  lemma ExtendsRefl(g: Geo, s: State)
    requires Inv(g, s)
    ensures Extends(g, s, s)
  {
  }

  lemma ExtendsTrans(g: Geo, s: State, t: State, u: State)
    requires Extends(g, s, t) && Extends(g, t, u)
    ensures Extends(g, s, u)
  {
    hide Addr, ByteAt;
    forall i, x | i in s.inodes && x >= 0 && Mapped(g, s, i, x) ensures ByteAt(g, u, i, x) == ByteAt(g, s, i, x) {
      ExtendsMapped(g, s, t, i, x);
    }
  }

  lemma ExtendsMapped(g: Geo, s: State, t: State, i: nat, x: nat)
    requires Extends(g, s, t) && i in s.inodes && Mapped(g, s, i, x)
    ensures Mapped(g, t, i, x)
  {
    hide Addr, ByteAt;
    DataSlotOk(g, x / g.bsize);
  }

  lemma AttachExtends(g: Geo, s: State, i: nat, sl: Slot, b: nat)
    requires Attachable(g, s, i, sl, b)
    ensures Extends(g, s, Attach(g, s, i, sl, b))
  {
    hide Attach, Addr, Owned, ByteAt;
    AttachShape(g, s, i, sl, b);
    var t := Attach(g, s, i, sl, b);
    forall i', sl' | i' in s.inodes && SlotOk(g, sl') && Addr(g, s.blocks, s.inodes[i'], sl') != 0
      ensures Addr(g, t.blocks, t.inodes[i'], sl') == Addr(g, s.blocks, s.inodes[i'], sl')
    { AddrAfter(g, s, i, sl, b, i', sl'); }
    forall i', x | i' in s.inodes && x >= 0 && Mapped(g, s, i', x) ensures ByteAt(g, t, i', x) == ByteAt(g, s, i', x) {
      AttachByte(g, s, i, sl, b, i', x);
    }
  }

  lemma EntryRead(g: Geo, s: State, i: nat, sl: Slot)
    requires Inv(g, s) && i in s.inodes && SlotOk(g, sl) && !InInode(sl) && Addr(g, s.blocks, s.inodes[i], Parent(sl)) != 0
    ensures var up := Addr(g, s.blocks, s.inodes[i], Parent(sl));
      up < |s.blocks| && Word(s.blocks[up], Index(g, sl)) == Addr(g, s.blocks, s.inodes[i], sl)
  {
    assert KindOk(g, s, i, Parent(sl));
  }

  lemma HereRead(g: Geo, s: State, i: nat, sl: Slot)
    requires Inv(g, s) && i in s.inodes && SlotOk(g, sl) && InInode(sl)
    ensures Index(g, sl) < |s.inodes[i].addrs| && s.inodes[i].addrs[Index(g, sl)] == Addr(g, s.blocks, s.inodes[i], sl)
  {
  }

  lemma ParentKept(g: Geo, s: State, t: State, i: nat, sl: Slot)
    requires Extends(g, s, t) && i in s.inodes && SlotOk(g, sl) && Addr(g, s.blocks, s.inodes[i], Parent(sl)) != 0
    ensures Addr(g, t.blocks, t.inodes[i], Parent(sl)) == Addr(g, s.blocks, s.inodes[i], Parent(sl))
  {
    hide Addr, ByteAt;
    assert SlotOk(g, Parent(sl));
  }

  lemma DataSlotOk2(g: Geo, s: State, bn: nat)
    requires Inv(g, s) && bn < g.MaxFile()
    ensures SlotOk(g, DataSlot(g, bn)) && Shape(g, s) && g.Ok()
    ensures bn >= g.nd + g.ni ==> g.dbl
  {
    DataSlotOk(g, bn);
  }

  /** A mapped entry has a mapped parent. */
  lemma TreeParents(g: Geo, s: State, i: nat, bn: nat)
    requires Inv(g, s) && i in s.inodes && bn < g.MaxFile()
    requires SlotOk(g, DataSlot(g, bn))
    ensures Addr(g, s.blocks, s.inodes[i], DataSlot(g, bn)) != 0 ==>
      match DataSlot(g, bn)
      case IndAt(_) => Addr(g, s.blocks, s.inodes[i], Ind) != 0
      case DblAt2(j, _) => Addr(g, s.blocks, s.inodes[i], DblAt(j)) != 0 && Addr(g, s.blocks, s.inodes[i], Dbl) != 0
      case _ => true
  {
  }

  lemma NewIndEmpty(g: Geo, s: State, t: State, i: nat, j: nat)
    requires Extends(g, s, t) && i in s.inodes && Addr(g, s.blocks, s.inodes[i], Ind) == 0 && j < g.ni
    ensures Addr(g, s.blocks, s.inodes[i], IndAt(j)) == 0
  {
  }

  lemma NewSlotWasEmpty(g: Geo, s: State, t: State, i: nat, sl: Slot)
    requires Extends(g, s, t) && i in s.inodes && SlotOk(g, sl) && Addr(g, t.blocks, t.inodes[i], sl) == 0
    ensures Addr(g, s.blocks, s.inodes[i], sl) == 0
  {
    hide Addr, ByteAt;
  }

  lemma InvOwned(g: Geo, s: State)
    requires Inv(g, s)
    ensures Shape(g, s) && Owned(g, s, NoneDead)
  {
  }

  lemma AttachFields(g: Geo, s: State, i: nat, sl: Slot, b: nat)
    requires i in s.inodes && b < |s.bitmap| && b < |s.blocks| && !InInode(sl)
    ensures var t := Attach(g, s, i, sl, b);
      t.bitmap == s.bitmap[b := true] && t.inodes == s.inodes && t.owner == s.owner[b := (i, sl)]
  {
  }
}
