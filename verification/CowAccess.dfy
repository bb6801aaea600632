/** Access to user memory under copy-on-write: the fault handler walkcowaddr
    (xv6-labs-cow/trap.c:20-62), copyout and copyin (xv6-labs-cow/vm.c:347-395), and user
    loads and stores as the hardware performs them, with the store-fault arm of usertrap. */
module CowAccess {
  import opened Sv39
  import opened KernelState
  import opened CowKernel
  import opened UserMemory
  import opened CowFork

  /** kalloc; memmove; uvmunmap; mappages: table root gets its own writable copy of page v. */
  method SplitPage(k: Kernel, root: int, va: nat) returns (mem: int)
    requires Inv(k.S(), {}) && Quiet(k.S()) && va < MAXVA && HasLeaf(k.spaces, root, va / PGSIZE)
    modifies k
    ensures k.fails == old(k.fails) + (if mem == 0 then 1 else 0)
    ensures |k.freelist| + 1 >= |old(k.freelist)|
    ensures Inv(k.S(), {}) && Quiet(k.S()) && k.spaces.Keys == old(k.spaces).Keys
    ensures ViewOf(k.S()) == old(ViewOf(k.S()))
    ensures mem == 0 <==> old(k.freelist) == []
    ensures mem == 0 ==> k.S() == old(k.S())
    ensures mem != 0 ==>
      && HasLeaf(k.spaces, root, va / PGSIZE)
      && LeafAt(k.spaces, root, va / PGSIZE) == Split(LeafAt(old(k.spaces), root, va / PGSIZE), mem)
      && mem == old(k.freelist)[0] && EntriesElsewhere(old(k.spaces), k.spaces, root, root, va / PGSIZE)
    ensures Steady(old(k.S()), k.S()) && StaysPlain(old(k.spaces), k.spaces)
  {
    hide Steady, StaysPlain, HoldsOne, EntriesElsewhere;
    hide Inv, ViewOf, Grown, Quiet, Bit, PTE2PA, PTE_FLAGS, Encode, LowOf, LowSlot, PX, FlagBits, PA2PTE, SetBit, ClearBit;
    hide Mappable, MappedN, PageOf, Alloc, UnmappedN, PGROUNDDOWN, Span, Fresh, DataFrame, Runs, PermBits;
    ghost var s0, v := k.S(), va / PGSIZE;
    ghost var p := LeafAt(s0.spaces, root, v);
    PageBase(va);
    LeafSlot(s0, root, v);
    var found, pg, idx := k.Walk(root, va, false);
    var pte := k.frames[pg].entries[idx];
    var pa := PTE2PA(pte);
    AllocFirst(s0);
    NothingNew(s0);
    mem := k.Kalloc({});
    if mem == 0 {
      return;
    }
    AllocQuiet(s0, p, root, v);
    k.frames := k.frames[mem := k.frames[pa]];
    ghost var s2 := k.S();
    CopiedPage(s0, s2, root, root, v, p);
    AllocHolds(s0, s2, s0.frames[p.pa]);
    var flags := SetBit(ClearBit(PTE_FLAGS(pte), PTE_COW), PTE_W);
    SplitBitsPerm(p);
    OneLeaf(s2, root, v);
    k.Uvmunmap(root, PGROUNDDOWN(va), 1);
    ghost var s3 := k.S();
    Unmapped(s2, s3, root, v, p, mem);
    OnePageCount(PGROUNDDOWN(va));
    var fine, done := k.Mappages(root, PGROUNDDOWN(va), PGSIZE, mem, flags, Split(p, mem).flags);
    assert fine;
    OneMapped(s3, k.S(), root, v, mem, Split(p, mem).flags);
    MappedQuiet(s3, k.S(), root, v, Split(p, mem));
    SamePage(s2.frames, s3.frames, p, mem);
    ViewKeys(s0, root);
    SplitView(s0, s3, k.S(), root, v, p, mem);
    SplitEntries(s0, s2, s3, k.S(), root, v, p, mem);
  }

  lemma SplitEntries(s: State, t: State, u: State, x: State, r: int, v: int, p: Pte, mem: int)
    requires HasLeaf(s.spaces, r, v) && HoldsOne(s, t, mem) && t.spaces == s.spaces && UnmappedN(t, u, r, v, 1) && Fresh(u, mem)
    requires MappedN(u, x, r, v, mem, Split(p, mem).flags, 1) && x.spaces[r].leaves == u.spaces[r].leaves[v := Split(p, mem)]
    ensures Steady(s, x) && StaysPlain(s.spaces, x.spaces) && EntriesElsewhere(s.spaces, x.spaces, r, r, v)
  {
    forall q ensures InRun(q, mem, 1) <==> q == mem { InRunOne(q, mem); }
    forall q, w | HasLeaf(s.spaces, q, w) && (q, w) != (r, v) ensures HasLeaf(x.spaces, q, w) && LeafAt(x.spaces, q, w) == LeafAt(s.spaces, q, w) {
      assert HasLeaf(u.spaces, q, w);
    }
    forall q, w | HasLeaf(x.spaces, q, w) && (q, w) != (r, v) ensures HasLeaf(s.spaces, q, w) && LeafAt(x.spaces, q, w) == LeafAt(s.spaces, q, w) {
      assert HasLeaf(u.spaces, q, w);
    }
  }

  lemma SamePage(fs: map<int, Frame>, ft: map<int, Frame>, p: Pte, mem: int)
    requires mem in fs && mem in ft && fs[mem] == ft[mem]
    ensures PageOf(ft, Split(p, mem)) == PageOf(fs, Pte(mem, p.flags))
    ensures Split(p, mem) == Pte(mem, Split(p, mem).flags)
  {
  }

  lemma PageBase(va: nat)
    requires va < MAXVA
    ensures PGROUNDDOWN(va) % PGSIZE == 0 && PGROUNDDOWN(va) / PGSIZE == va / PGSIZE
    ensures PGROUNDDOWN(va) + PGSIZE <= MAXVA && va / PGSIZE + 1 <= MAXVPN
  {
  }

  lemma SplitBitsPerm(p: Pte)
    requires Aligned(p.pa)
    ensures PermBits(SetBit(ClearBit(PTE_FLAGS(Encode(p)), PTE_COW), PTE_W), p.flags.(w := true, cow := false))
  {
    SplitBits(p);
    assert p.flags.(cow := false, w := true) == p.flags.(w := true, cow := false);
  }

  lemma OneLeaf(s: State, r: int, v: int)
    requires HasLeaf(s.spaces, r, v)
    ensures forall w :: v <= w < v + 1 ==> HasLeaf(s.spaces, r, w)
  {
  }

  /** After the old entry is gone the fresh frame is untouched, and its slot still exists:
      this is why the remap cannot fail. */
  lemma Unmapped(s: State, t: State, r: int, v: nat, p: Pte, mem: int)
    requires Inv(s, {}) && Inv(t, {}) && HasLeaf(s.spaces, r, v) && LeafAt(s.spaces, r, v) == p
    requires UnmappedN(s, t, r, v, 1) && Fresh(s, mem) && DataFrame(s, mem)
    ensures r in t.spaces && t.spaces.Keys == s.spaces.Keys && !HasLeaf(t.spaces, r, v) && mem > 0
    ensures Fresh(t, mem) && DataFrame(t, mem) && mem in s.frames && mem in t.frames && t.frames[mem] == s.frames[mem]
    ensures Runs(t, r, v, mem, Split(p, mem).flags, 1)
    ensures forall w :: v <= w < v + 1 ==> HasSlot(t.spaces, r, w)
  {
    hide NodesOk, FreeOk, CountsOk, SharingOk;
    assert LeafOk(s, r, v);
    RefOf(s.spaces, r, v);
    assert mem !in FramesOf(s.spaces[r].leaves, v, 1);
    forall q, w | HasLeaf(t.spaces, q, w) ensures LeafAt(t.spaces, q, w).pa != mem {
      assert HasLeaf(s.spaces, q, w);
      RefOf(s.spaces, q, w);
    }
    assert Refs(t.spaces, mem) == {} by {
      forall x ensures x !in Refs(t.spaces, mem) { assert HasLeaf(t.spaces, x.0, x.1) ==> LeafAt(t.spaces, x.0, x.1).pa != mem; }
    }
    FreshMappable(t.spaces, r, mem, Split(p, mem).flags);
    forall j | 0 <= j < 1
      ensures !HasLeaf(t.spaces, r, v + j) && DataFrame(t, mem + j * PGSIZE)
        && Mappable(t.spaces, r, Pte(mem + j * PGSIZE, Split(p, mem).flags))
    {
      assert mem + j * PGSIZE == mem;
    }
    forall w | v <= w < v + 1 ensures HasSlot(t.spaces, r, w) { assert w == v; }
  }

  lemma SplitView(s: State, t: State, u: State, r: int, v: int, p: Pte, mem: int)
    requires HasLeaf(s.spaces, r, v) && LeafAt(s.spaces, r, v) == p && r in ViewOf(s)
    requires ViewOf(t) == ViewOf(s)[r := ViewOf(s)[r] - Span(v, 1)] && r in u.spaces
    requires mem in t.frames && PageOf(t.frames, Split(p, mem)) == PageOf(s.frames, p)
    requires ViewOf(u) == ViewOf(t)[r := ViewOf(t)[r][v := PageOf(t.frames, Split(p, mem))]]
    ensures ViewOf(u) == ViewOf(s)
  {
    ViewKeys(s, r);
    hide ViewOf, PageOf;
    var m := ViewOf(s)[r];
    assert (m - Span(v, 1))[v := m[v]] == m;
  }

  /** The physical address behind va for writing, or 0. A shared page is split first; what the
      tables show does not change. */
  method Walkcowaddr(k: Kernel, root: int, va: nat) returns (pa: int)
    requires Inv(k.S(), {}) && Quiet(k.S()) && root in k.spaces
    modifies k
    ensures k.fails == old(k.fails) + (if pa == 0 && UserPage(old(ViewOf(k.S()))[root], va) then 1 else 0)
    ensures |k.freelist| + 1 >= |old(k.freelist)|
    ensures Inv(k.S(), {}) && Quiet(k.S()) && k.spaces.Keys == old(k.spaces).Keys
    ensures ViewOf(k.S()) == old(ViewOf(k.S()))
    ensures !UserPage(old(ViewOf(k.S()))[root], va) ==> pa == 0
    ensures UserPage(old(ViewOf(k.S()))[root], va) ==> (pa == 0 <==> IsCow(old(k.spaces), root, va / PGSIZE) && old(k.freelist) == [])
    ensures pa == 0 || !IsCow(old(k.spaces), root, va / PGSIZE) ==> k.S() == old(k.S())
    ensures pa != 0 ==>
      && va < MAXVA && HasLeaf(old(k.spaces), root, va / PGSIZE) && HasLeaf(k.spaces, root, va / PGSIZE)
      && LeafAt(k.spaces, root, va / PGSIZE).pa == pa && LeafAt(k.spaces, root, va / PGSIZE).flags.w
    ensures pa != 0 ==> OnlySplit(old(k.spaces), k.spaces, root, va / PGSIZE, va / PGSIZE + 1)
    ensures Steady(old(k.S()), k.S()) && StaysPlain(old(k.spaces), k.spaces)
  {
    hide OnlySplit, Steady, StaysPlain, EntriesElsewhere;
    hide Inv, ViewOf, Grown, Quiet, PTE2PA, PTE_FLAGS, Encode, LowOf, LowSlot, PX, FlagBits, PageOf, Bit;
    ghost var s0, v := k.S(), va / PGSIZE;
    ViewKeys(s0, root);
    NothingNew(s0);
    if va >= MAXVA {
      return 0;
    }
    PathOfPage(va);
    var found, pg, idx := k.Walk(root, va, false);
    NoSlotNoLeaf(s0, root, v);
    if !found {
      return 0;
    }
    SlotFacts(s0, root, v);
    var pte := k.frames[pg].entries[idx];
    SlotBits(s0, root, v);
    if !Bit(pte, PTE_V) {
      return 0;
    }
    LeafSlot(s0, root, v);
    if !Bit(pte, PTE_U) {
      return 0;
    }
    pa := PTE2PA(pte);
    if !Bit(pte, PTE_W) {
      if !Bit(pte, PTE_COW) {
        return 0;
      }
      var mem := SplitPage(k, root, va);
      if mem != 0 { SplitOnly(s0.spaces, k.spaces, root, v, mem); }
      return mem;
    }
    SplitNothing(s0.spaces, root, v);
  }

  /** Page v of the table is read-only and copy-on-write. */
  ghost predicate IsCow(ss: Spaces, r: int, v: int) { HasLeaf(ss, r, v) && LeafAt(ss, r, v).flags.cow }

  /** Pages lo .. hi-1 of table r are writable now, those that were copy-on-write in frames of their own;
      no other entry changed. */
  ghost predicate OnlySplit(ss: Spaces, tt: Spaces, r: int, lo: int, hi: int) {
    && (forall q, v :: HasLeaf(tt, q, v) <==> HasLeaf(ss, q, v))
    && (forall v :: lo <= v < hi && HasLeaf(tt, r, v) ==> LeafAt(tt, r, v).flags.w)
    && forall q, v :: HasLeaf(ss, q, v) && !(q == r && lo <= v < hi && IsCow(ss, q, v)) ==> LeafAt(tt, q, v) == LeafAt(ss, q, v)
  }

  lemma SplitOnly(ss: Spaces, tt: Spaces, r: int, v: int, mem: int)
    requires IsCow(ss, r, v) && EntriesElsewhere(ss, tt, r, r, v) && HasLeaf(tt, r, v) && LeafAt(tt, r, v) == Split(LeafAt(ss, r, v), mem)
    ensures OnlySplit(ss, tt, r, v, v + 1)
  {
    forall q, w ensures HasLeaf(tt, q, w) <==> HasLeaf(ss, q, w) { }
  }

  lemma SplitNothing(ss: Spaces, r: int, v: int)
    requires HasLeaf(ss, r, v) && LeafAt(ss, r, v).flags.w
    ensures OnlySplit(ss, ss, r, v, v + 1)
  {
  }

  lemma SplitMore(ss: Spaces, tt: Spaces, uu: Spaces, r: int, lo: int, v: int)
    requires lo <= v && OnlySplit(ss, tt, r, lo, v) && OnlySplit(tt, uu, r, v, v + 1)
    ensures OnlySplit(ss, uu, r, lo, v + 1) && (HasLeaf(ss, r, v) ==> IsCow(tt, r, v) == IsCow(ss, r, v))
  {
    forall q, w | HasLeaf(ss, q, w) && !(q == r && lo <= w < v + 1 && IsCow(ss, q, w)) ensures LeafAt(uu, q, w) == LeafAt(ss, q, w) {
      assert HasLeaf(tt, q, w) && LeafAt(tt, q, w) == LeafAt(ss, q, w);
    }
    forall w | lo <= w < v && HasLeaf(uu, r, w) ensures LeafAt(uu, r, w).flags.w { assert HasLeaf(tt, r, w); }
  }

  lemma StillCow(ss: Spaces, tt: Spaces, r: int, lo: int, v: int)
    requires lo <= v && OnlySplit(ss, tt, r, lo, v)
    ensures IsCow(tt, r, v) == IsCow(ss, r, v)
  {
  }

  /** How many of the pages lo .. hi-1 are copy-on-write. */
  ghost function CowPages(ss: Spaces, r: int, lo: nat, hi: nat): nat
    decreases hi
  {
    if hi <= lo then 0 else CowPages(ss, r, lo, hi - 1) + (if IsCow(ss, r, hi - 1) then 1 else 0)
  }

  /** The page after the last one that n bytes from dst on touch. */
  function PagesEnd(dst: nat, n: nat): nat { if n == 0 then dst / PGSIZE else (dst + n - 1) / PGSIZE + 1 }

  lemma NoSlotNoLeaf(s: State, r: int, v: nat)
    requires Inv(s, {})
    ensures HasLeaf(s.spaces, r, v) ==> HasDir(s.spaces, r, LowOf(v))
  {
    if HasLeaf(s.spaces, r, v) { assert LeafOk(s, r, v); }
  }

  /** The bits walkcowaddr tests, in terms of the flat map. */
  lemma SlotBits(s: State, r: int, v: nat)
    requires Inv(s, {}) && HasDir(s.spaces, r, LowOf(v)) && v < MAXVPN
    requires DirAt(s.spaces, r, LowOf(v)) in s.frames && s.frames[DirAt(s.spaces, r, LowOf(v))].Ptes?
    requires LowSlot(v) < |s.frames[DirAt(s.spaces, r, LowOf(v))].entries|
    ensures var e := s.frames[DirAt(s.spaces, r, LowOf(v))].entries[LowSlot(v)];
      && (Bit(e, PTE_V) <==> HasLeaf(s.spaces, r, v))
      && (HasLeaf(s.spaces, r, v) ==>
            var f := LeafAt(s.spaces, r, v).flags;
            && f.w != f.cow && Bit(e, PTE_U) == f.u && Bit(e, PTE_W) == f.w && Bit(e, PTE_COW) == f.cow
            && PageOf(s.frames, LeafAt(s.spaces, r, v)).u == f.u)
  {
    SlotFacts(s, r, v);
    if HasLeaf(s.spaces, r, v) {
      LeafSlot(s, r, v);
      WasLeaf(s, r, v);
      EncodeFields(LeafAt(s.spaces, r, v));
    }
  }

  /** walkaddr: the physical address behind a user address, or 0. */
  method Walkaddr(k: Kernel, root: int, va: nat) returns (pa: int)
    requires Inv(k.S(), {}) && root in k.spaces
    modifies k
    ensures k.fails == old(k.fails)
    ensures k.S() == old(k.S())
    ensures pa != 0 <==> UserPage(ViewOf(k.S())[root], va)
    ensures pa != 0 ==> HasLeaf(k.spaces, root, va / PGSIZE) && LeafAt(k.spaces, root, va / PGSIZE).pa == pa
  {
    hide Inv, ViewOf, Grown, PTE2PA, PTE_FLAGS, Encode, LowOf, LowSlot, PX, FlagBits, PageOf, Bit;
    ghost var s0, v := k.S(), va / PGSIZE;
    ViewKeys(s0, root);
    if va >= MAXVA {
      return 0;
    }
    PathOfPage(va);
    var found, pg, idx := k.Walk(root, va, false);
    NoSlotNoLeaf(s0, root, v);
    if !found {
      return 0;
    }
    SlotFacts(s0, root, v);
    var pte := k.frames[pg].entries[idx];
    SlotBits(s0, root, v);
    if !Bit(pte, PTE_V) {
      return 0;
    }
    LeafSlot(s0, root, v);
    if !Bit(pte, PTE_U) {
      return 0;
    }
    pa := PTE2PA(pte);
  }

  /** memmove into the writable frame behind va: a store at va in table root, nowhere else. */
  method WriteFrame(k: Kernel, root: int, va: nat, pa: int, bs: seq<byte>)
    requires Inv(k.S(), {}) && Quiet(k.S()) && va < MAXVA && HasLeaf(k.spaces, root, va / PGSIZE)
    requires LeafAt(k.spaces, root, va / PGSIZE).pa == pa && LeafAt(k.spaces, root, va / PGSIZE).flags.w
    requires va % PGSIZE + |bs| <= PGSIZE
    modifies k
    ensures k.fails == old(k.fails)
    ensures Inv(k.S(), {}) && Quiet(k.S()) && k.spaces == old(k.spaces) && k.freelist == old(k.freelist)
    ensures ViewOf(k.S()) == old(ViewOf(k.S()))[root := StoreBytes(old(ViewOf(k.S()))[root], va, bs)]
    ensures Steady(old(k.S()), k.S())
  {
    hide Inv, ViewOf, Quiet, StoreBytes;
    ghost var s0, v := k.S(), va / PGSIZE;
    LeafBytes(s0, root, v);
    ViewKeys(s0, root);
    ViewPages(s0, root);
    WriteUserKeeps(s0, root, v, Splice(k.frames[pa].data, va % PGSIZE, bs));
    StoreInPage(ViewOf(s0)[root], va, bs);
    k.frames := k.frames[pa := Bytes(Splice(k.frames[pa].data, va % PGSIZE, bs))];
    HeldSame(s0, k.S());
  }

  lemma LeafBytes(s: State, r: int, v: int)
    requires Inv(s, {}) && HasLeaf(s.spaces, r, v)
    ensures var pa := LeafAt(s.spaces, r, v).pa;
      pa in s.frames && s.frames[pa].Bytes? && |s.frames[pa].data| == PGSIZE
  {
    assert LeafOk(s, r, v);
  }

  /** One round of copyout: the part of bs that fits in the page of va, or nothing if the user may not
      access it or its split finds no memory. */
  method CopyChunk(k: Kernel, root: int, va: nat, bs: seq<byte>) returns (c: nat)
    requires Inv(k.S(), {}) && Quiet(k.S()) && root in k.spaces && |bs| > 0
    modifies k
    ensures k.fails == old(k.fails) + (if c == 0 && UserPage(old(ViewOf(k.S()))[root], va) then 1 else 0)
    ensures Inv(k.S(), {}) && Quiet(k.S()) && k.spaces.Keys == old(k.spaces).Keys
    ensures c == 0 <==> !UserPage(old(ViewOf(k.S()))[root], va) || (IsCow(old(k.spaces), root, va / PGSIZE) && old(k.freelist) == [])
    ensures c == 0 ==> k.S() == old(k.S())
    ensures c > 0 ==> c == if PGSIZE - va % PGSIZE < |bs| then PGSIZE - va % PGSIZE else |bs|
    ensures var w := old(ViewOf(k.S())); c > 0 ==> c <= |bs| && ViewOf(k.S()) == w[root := StoreBytes(w[root], va, bs[..c])]
    ensures c > 0 ==> OnlySplit(old(k.spaces), k.spaces, root, va / PGSIZE, va / PGSIZE + 1)
    ensures |k.freelist| + (if IsCow(old(k.spaces), root, va / PGSIZE) then 1 else 0) >= |old(k.freelist)|
    ensures Steady(old(k.S()), k.S()) && StaysPlain(old(k.spaces), k.spaces)
  {
    hide Inv, ViewOf, Quiet, StoreBytes, UserPage, OnlySplit, Steady, StaysPlain, IsCow, PGROUNDDOWN;
    ghost var s0 := k.S();
    ViewKeys(s0, root);
    var va0 := PGROUNDDOWN(va);
    BaseAccess(ViewOf(s0)[root], va, va0);
    var pa0 := Walkcowaddr(k, root, va0);
    if pa0 == 0 {
      return 0;
    }
    c := PGSIZE - (va - va0);
    if c > |bs| {
      c := |bs|;
    }
    ChunkFacts(va, va0, c);
    ghost var s1 := k.S();
    WriteFrame(k, root, va, pa0, bs[..c]);
    SteadyTrans(s0, s1, k.S());
  }

  /** copyout: n bytes reach the user address, all of them if it returns 0, and every address of
      every table outside them keeps its byte. It stops early only at an address the user
      may not access or when the split of a copy-on-write page finds no memory. */
  method Copyout(k: Kernel, root: int, dst: nat, src: seq<byte>) returns (ok: bool, n: nat, ghost oom: bool)
    requires Inv(k.S(), {}) && Quiet(k.S()) && root in k.spaces
    modifies k
    ensures k.fails == old(k.fails) + (if oom then 1 else 0)
    ensures Inv(k.S(), {}) && Quiet(k.S()) && k.spaces.Keys == old(k.spaces).Keys
    ensures n <= |src| && (ok ==> n == |src|)
    ensures var w := old(ViewOf(k.S())); ViewOf(k.S()) == w[root := StoreBytes(w[root], dst, src[..n])]
    ensures forall x :: dst <= x < dst + n ==> UserPage(old(ViewOf(k.S()))[root], x)
    ensures !ok ==> n < |src| && (oom || !UserPage(old(ViewOf(k.S()))[root], dst + n))
    ensures oom ==> !ok && UserPage(old(ViewOf(k.S()))[root], dst + n) && IsCow(old(k.spaces), root, (dst + n) / PGSIZE)
    ensures oom ==> |old(k.freelist)| <= n
    ensures oom ==> |old(k.freelist)| <= CowPages(old(k.spaces), root, dst / PGSIZE, (dst + n) / PGSIZE)
    ensures OnlySplit(old(k.spaces), k.spaces, root, dst / PGSIZE, PagesEnd(dst, n))
    ensures Steady(old(k.S()), k.S()) && StaysPlain(old(k.spaces), k.spaces)
  {
    hide Inv, ViewOf, Quiet, StoreBytes, UserPage, OnlySplit, Steady, StaysPlain, CowPages, PagesEnd, IsCow, PGROUNDDOWN;
    ghost var s0, lo, w := k.S(), dst / PGSIZE, ViewOf(k.S());
    NothingNew(s0);
    CopyStart(s0.spaces, root, dst);
    ViewKeys(s0, root);
    StoreNothing(w[root], dst);
    assert src[..0] == [];
    n, oom := 0, false;
    var va, rest := dst, src;
    while |rest| > 0
      invariant |rest| > 0 ==> va == dst + n
      invariant n + |rest| == |src| && rest == src[n..] && !oom && k.fails == old(k.fails)
      invariant Inv(k.S(), {}) && Quiet(k.S()) && k.spaces.Keys == old(k.spaces).Keys
      invariant ViewOf(k.S()) == w[root := StoreBytes(w[root], dst, src[..n])]
      invariant forall x :: dst <= x < dst + n ==> UserPage(w[root], x)
      invariant Steady(s0, k.S()) && StaysPlain(s0.spaces, k.spaces) && OnlySplit(s0.spaces, k.spaces, root, lo, PagesEnd(dst, n))
      invariant |rest| > 0 ==> PagesEnd(dst, n) == (dst + n) / PGSIZE >= lo
      invariant |rest| > 0 ==> |k.freelist| + CowPages(s0.spaces, root, lo, (dst + n) / PGSIZE) >= |old(k.freelist)|
      decreases |rest|
    {
      ghost var s1 := k.S();
      StoreAccess(w[root], dst, src[..n], va);
      StillCow(s0.spaces, s1.spaces, root, lo, va / PGSIZE);
      var c := CopyChunk(k, root, va, rest);
      if c == 0 {
        oom := UserPage(w[root], va);
        CowFew(s0.spaces, root, dst, n);
        return false, n, oom;
      }
      SplitMore(s0.spaces, s1.spaces, k.spaces, root, lo, va / PGSIZE);
      CowNext(s0.spaces, root, lo, va / PGSIZE);
      SteadyTrans(s0, s1, k.S());
      PlainTrans(s0, s1, k.S());
      StoreConcat(w[root], dst, src[..n], rest[..c]);
      assert src[..n] + rest[..c] == src[..n + c];
      AccessRun(w[root], va, c);
      NextPage(dst, n, c, |rest|);
      rest := rest[c..];
      n := n + c;
      va := PGROUNDDOWN(va) + PGSIZE;
    }
    return true, n, oom;
  }

  lemma StoreAccess(m: Mem, va: int, bs: seq<byte>, x: nat)
    ensures UserPage(StoreBytes(m, va, bs), x) == UserPage(m, x)
  {
  }

  lemma CopyStart(ss: Spaces, r: int, dst: nat)
    ensures PagesEnd(dst, 0) == dst / PGSIZE && OnlySplit(ss, ss, r, dst / PGSIZE, dst / PGSIZE) && CowPages(ss, r, dst / PGSIZE, dst / PGSIZE) == 0
  {
  }

  lemma CowNext(ss: Spaces, r: int, lo: nat, v: nat)
    requires lo <= v
    ensures CowPages(ss, r, lo, v + 1) == CowPages(ss, r, lo, v) + (if IsCow(ss, r, v) then 1 else 0)
  {
  }

  lemma NextPage(dst: nat, n: nat, c: nat, left: nat)
    requires var d := PGSIZE - (dst + n) % PGSIZE; 0 < c && c == if d < left then d else left
    ensures PagesEnd(dst, n + c) == (dst + n) / PGSIZE + 1 && dst / PGSIZE <= (dst + n) / PGSIZE
    ensures c < left ==> (dst + n + c) / PGSIZE == (dst + n) / PGSIZE + 1 && dst + n + c == PGROUNDDOWN(dst + n) + PGSIZE
  {
  }

  lemma CowFew(ss: Spaces, r: int, dst: nat, n: nat)
    ensures CowPages(ss, r, dst / PGSIZE, (dst + n) / PGSIZE) <= n
  {
    CowAtMost(ss, r, dst / PGSIZE, (dst + n) / PGSIZE);
  }

  lemma {:induction false} CowAtMost(ss: Spaces, r: int, lo: nat, hi: nat)
    requires lo <= hi
    ensures CowPages(ss, r, lo, hi) <= hi - lo
    decreases hi
  {
    if lo < hi { CowAtMost(ss, r, lo, hi - 1); }
  }

  lemma ChunkFacts(va: nat, va0: nat, c: nat)
    requires va0 == PGROUNDDOWN(va) && c <= PGSIZE - (va - va0)
    ensures va / PGSIZE == va0 / PGSIZE && va % PGSIZE == va - va0 && va % PGSIZE + c <= PGSIZE
    ensures va0 < MAXVA <==> va < MAXVA
    ensures (va0 + PGSIZE) % PGSIZE == 0
  {
  }

  lemma AccessRun(m: Mem, va: nat, c: nat)
    requires UserPage(m, va) && va % PGSIZE + c <= PGSIZE
    ensures forall x :: va <= x < va + c ==> UserPage(m, x)
  {
    forall x | va <= x < va + c ensures UserPage(m, x) {
      assert x / PGSIZE == va / PGSIZE;
    }
  }

  /** copyin: succeeds exactly on accessible ranges and returns the bytes the table shows there. */
  method Copyin(k: Kernel, root: int, srcva: nat, len: nat) returns (ok: bool, dst: seq<byte>)
    requires Inv(k.S(), {}) && root in k.spaces
    modifies k
    ensures k.fails == old(k.fails)
    ensures k.S() == old(k.S())
    ensures ok <==> forall x :: srcva <= x < srcva + len ==> UserPage(ViewOf(k.S())[root], x)
    ensures ok ==> dst == LoadBytes(ViewOf(k.S())[root], srcva, len)
  {
    hide Inv, ViewOf, UserPage, ByteAt, PGROUNDDOWN;
    ViewKeys(k.S(), root);
    ghost var m := ViewOf(k.S())[root];
    dst := [];
    var va, left := srcva, len;
    while left > 0
      invariant 0 <= left <= len && |dst| == len - left && (left > 0 ==> va == srcva + |dst|)
      invariant k.S() == old(k.S()) && k.fails == old(k.fails) && dst == LoadBytes(m, srcva, |dst|)
      invariant forall x :: srcva <= x < srcva + |dst| ==> UserPage(m, x)
      decreases left
    {
      var va0 := PGROUNDDOWN(va);
      BaseAccess(m, va, va0);
      var pa0 := Walkaddr(k, root, va0);
      if pa0 == 0 {
        return false, [];
      }
      var n := PGSIZE - (va - va0);
      if n > left {
        n := left;
      }
      ChunkFacts(va, va0, n);
      LeafBytes(k.S(), root, va / PGSIZE);
      ReadFrame(k.S(), root, va, n);
      AccessRun(m, va, n);
      LoadConcat(m, srcva, |dst|, n);
      dst := dst + k.frames[pa0].data[va - va0..va - va0 + n];
      left := left - n;
      va := va0 + PGSIZE;
    }
    return true, dst;
  }

  lemma BaseAccess(m: Mem, va: nat, va0: nat)
    requires va0 == PGROUNDDOWN(va)
    ensures UserPage(m, va0) == UserPage(m, va) && va0 <= va < va0 + PGSIZE && va0 / PGSIZE == va / PGSIZE
  {
    assert va0 < MAXVA <==> va < MAXVA;
  }

  lemma ReadFrame(s: State, r: int, va: nat, n: nat)
    requires Inv(s, {}) && HasLeaf(s.spaces, r, va / PGSIZE) && va % PGSIZE + n <= PGSIZE
    ensures var pa := LeafAt(s.spaces, r, va / PGSIZE).pa;
      && pa in s.frames && s.frames[pa].Bytes? && |s.frames[pa].data| == PGSIZE
      && s.frames[pa].data[va % PGSIZE..va % PGSIZE + n] == LoadBytes(ViewOf(s)[r], va, n)
  {
    hide Inv, ViewOf;
    LeafBytes(s, r, va / PGSIZE);
    ViewKeys(s, r);
    var d := s.frames[LeafAt(s.spaces, r, va / PGSIZE).pa].data;
    ReadChunk(ViewOf(s)[r], va, n, d);
  }

  lemma ReadChunk(m: Mem, va: nat, n: nat, d: seq<byte>)
    requires va / PGSIZE in m && m[va / PGSIZE].data == d && |d| == PGSIZE && va % PGSIZE + n <= PGSIZE
    ensures d[va % PGSIZE..va % PGSIZE + n] == LoadBytes(m, va, n)
  {
    var l, r := d[va % PGSIZE..va % PGSIZE + n], LoadBytes(m, va, n);
    forall i | 0 <= i < n ensures l[i] == r[i] {
      assert (va + i) / PGSIZE == va / PGSIZE && (va + i) % PGSIZE == va % PGSIZE + i;
      assert r[i] == ByteAt(m, va + i);
    }
  }

  lemma LoadConcat(m: Mem, va: nat, a: nat, b: nat)
    ensures LoadBytes(m, va, a) + LoadBytes(m, va + a, b) == LoadBytes(m, va, a + b)
  {
  }

  /** A user store: direct if the entry is writable, otherwise the scause 15 arm of usertrap
      runs walkcowaddr and the instruction is retried; if that returns 0 the process is killed. */
  method UserStore(k: Kernel, root: int, va: nat, b: byte) returns (ok: bool, ghost oom: bool)
    requires Inv(k.S(), {}) && Quiet(k.S()) && root in k.spaces
    modifies k
    ensures k.fails == old(k.fails) + (if oom then 1 else 0)
    ensures Inv(k.S(), {}) && Quiet(k.S()) && k.spaces.Keys == old(k.spaces).Keys
    ensures var w := old(ViewOf(k.S()));
      ViewOf(k.S()) == if ok then w[root := StoreBytes(w[root], va, [b])] else w
    ensures ok || oom <==> UserPage(old(ViewOf(k.S()))[root], va)
    ensures oom <==> UserPage(old(ViewOf(k.S()))[root], va) && IsCow(old(k.spaces), root, va / PGSIZE) && old(k.freelist) == []
    ensures oom ==> !ok
    ensures ok ==> OnlySplit(old(k.spaces), k.spaces, root, va / PGSIZE, va / PGSIZE + 1)
    ensures !ok ==> k.S() == old(k.S())
    ensures Steady(old(k.S()), k.S()) && StaysPlain(old(k.spaces), k.spaces)
  {
    hide Inv, ViewOf, Quiet, StoreBytes, UserPage, OnlySplit, Steady, StaysPlain, IsCow;
    ghost var s0 := k.S();
    ViewKeys(s0, root);
    var pa := Walkcowaddr(k, root, va);
    if pa == 0 {
      return false, UserPage(old(ViewOf(k.S()))[root], va);
    }
    assert va % PGSIZE + 1 <= PGSIZE;
    ghost var s1 := k.S();
    WriteFrame(k, root, va, pa, [b]);
    SteadyTrans(s0, s1, k.S());
    return true, false;
  }
}
