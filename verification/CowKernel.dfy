/** The memory kernel of xv6-labs-cow as it runs: page allocator, three-level page tables,
    copy-on-write fork and the fault handler. The real fields are the raw memory; the ghost
    fields say what it stands for (KernelState.Inv). */
module CowKernel {
  import opened Sv39
  import opened KernelState

  class Kernel {
    var frames: map<int, Frame>
    var freelist: seq<int>
    var refcnt: map<int, int>
    ghost var spaces: Spaces
    ghost var role: map<int, Role>
    ghost var held: map<int, int>
    /** How often kalloc has found no free frame. */
    ghost var fails: nat

    ghost function S(): State
      reads this
    {
      State(frames, freelist, refcnt, spaces, role, held)
    }

    /** No managed frames yet: kinit then gives them to the allocator with Freerange. */
    constructor ()
      ensures Inv(S(), {}) && Tidy(S()) && frames == map[] && spaces == map[] && fails == 0
    {
      frames, freelist, refcnt := map[], [], map[];
      spaces, role, held := map[], map[], map[];
      fails := 0;
    }

    /** One round of freerange: increfcnt then kfree of a frame not seen before. */
    method AddFrame(pa: int)
      requires Inv(S(), {}) && Aligned(pa) && pa !in frames
      modifies this
      ensures fails == old(fails)
      ensures Inv(S(), {}) && spaces == old(spaces) && ViewOf(S()) == old(ViewOf(S()))
      ensures freelist == [pa] + old(freelist) && frames.Keys == old(frames.Keys) + {pa}
      ensures old(Tidy(S())) ==> Tidy(S())
    {
      hide Inv, ViewOf, Drop, Fill, Tidy;
      ghost var s := S();
      NewFrameKeeps(s, pa);
      frames := frames[pa := Bytes(Fill(0))];
      refcnt := refcnt[pa := 0];
      Increfcnt(pa);
      role := role[pa := Data];
      held := held[pa := 1];
      assert refcnt == s.ref[pa := 1];
      assert S() == NewFrame(s, pa);
      NewFrameDrop(s, pa);
      Kfree(pa, {});
    }

    /** freerange: hand the n frames from start on to the allocator. */
    method Freerange(start: int, n: nat)
      requires Inv(S(), {}) && Aligned(start) && FrameRun(start, n) !! frames.Keys
      modifies this
      ensures fails == old(fails)
      ensures Inv(S(), {}) && spaces == old(spaces) && ViewOf(S()) == old(ViewOf(S()))
      ensures frames.Keys == old(frames.Keys) + FrameRun(start, n)
      ensures |freelist| == |old(freelist)| + n
      ensures old(Tidy(S())) ==> Tidy(S())
    {
      hide Inv, ViewOf, Tidy;
      var i := 0;
      while i < n
        invariant 0 <= i <= n && Inv(S(), {}) && spaces == old(spaces) && ViewOf(S()) == old(ViewOf(S()))
        invariant frames.Keys == old(frames.Keys) + FrameRun(start, i)
        invariant |freelist| == |old(freelist)| + i && fails == old(fails) && (old(Tidy(S())) ==> Tidy(S()))
      {
        assert FrameRun(start, i + 1) == FrameRun(start, i) + {FrameAt(start, i)};
        assert FrameAt(start, i) in FrameRun(start, n);
        FrameNew(start, i);
        AddFrame(start + i * PGSIZE);
        i := i + 1;
      }
    }

    method Increfcnt(pa: int)
      requires pa in refcnt
      modifies `refcnt
      ensures refcnt == old(refcnt)[pa := (old(refcnt[pa]) + 1) % 256]
    {
      refcnt := refcnt[pa := (refcnt[pa] + 1) % 256];
    }

    method Decrefcnt(pa: int) returns (ret: int)
      requires pa in refcnt
      modifies `refcnt
      ensures refcnt == old(refcnt)[pa := ret] && ret == (old(refcnt[pa]) + 255) % 256
    {
      ret := (refcnt[pa] + 255) % 256;
      refcnt := refcnt[pa := ret];
    }

    /** Take the first free frame, or 0. The caller gets the only reference to it. */
    method Kalloc(ghost ex: set<int>) returns (pa: int)
      requires Inv(S(), ex)
      modifies this
      ensures fails == old(fails) + (if old(freelist) == [] then 1 else 0)
      ensures old(freelist) != [] ==> freelist == old(freelist)[1..]
      ensures Inv(S(), ex) && ViewOf(S()) == old(ViewOf(S()))
      ensures old(freelist) == [] ==> pa == 0 && S() == old(S())
      ensures old(freelist) != [] ==>
        pa == old(freelist)[0] && pa in old(frames) && old(role[pa].Free?) && S() == Alloc(old(S())) && Fresh(S(), pa)
    {
      hide Inv, ViewOf, Fresh;
      ghost var s := S();
      KeysOf(s, ex);
      if |freelist| == 0 {
        fails := fails + 1;
        return 0;
      }
      AllocKeeps(s, ex);
      pa := freelist[0];
      freelist := freelist[1..];
      Increfcnt(pa);
      frames := frames[pa := Bytes(Fill(5))];
      role := role[pa := Data];
      held := held[pa := 1];
      assert S() == Alloc(s);
    }

    /** Drop one reference; only the last one returns the frame. */
    method Kfree(pa: int, ghost ex: set<int>)
      requires Inv(S(), ex) && pa in frames && role[pa].Data? && held[pa] >= 1
      modifies this
      ensures fails == old(fails)
      ensures |freelist| >= |old(freelist)|
      ensures Inv(S(), ex) && ViewOf(S()) == old(ViewOf(S()))
      ensures S() == Drop(old(S()), pa)
    {
      hide Inv, ViewOf;
      ghost var s := S();
      KeysOf(s, ex);
      DropKeeps(s, pa, ex);
      held := held[pa := held[pa] - 1];
      var left := Decrefcnt(pa);
      if left != 0 {
        return;
      }
      frames := frames[pa := Bytes(Fill(1))];
      freelist := [pa] + freelist;
      role := role[pa := Free];
      assert S() == Drop(s, pa);
    }

    /** memset(pagetable, 0, PGSIZE); *pte = PA2PTE(pagetable) | PTE_V on a fresh page. */
    method NewTable(root: int, up: int, slot: nat, ghost n: Node) returns (mem: int)
      requires Inv(S(), {}) && n.InRange() && n != Root && !HasDir(spaces, root, n)
      requires HasDir(spaces, root, n.Parent()) && up == DirAt(spaces, root, n.Parent()) && slot == n.Slot()
      modifies this
      ensures fails == old(fails) + (if mem == 0 then 1 else 0)
      ensures |freelist| + 1 >= |old(freelist)|
      ensures Inv(S(), {}) && ViewOf(S()) == old(ViewOf(S())) && Grown(old(S()), S(), root)
      ensures old(freelist) == [] ==> mem == 0 && S() == old(S())
      ensures old(freelist) != [] ==> mem > 0 && spaces == PutDir(old(spaces), root, n, mem)
    {
      hide Inv, Grown, ViewOf;
      ghost var s0 := S();
      AllocFirst(s0);
      GrownRefl(s0, root);
      mem := Kalloc({});
      if mem == 0 {
        return;
      }
      ghost var s1 := S();
      AddDirKeeps(s1, root, n, mem);
      AddDirFacts(s0, s1, root, n, mem);
      frames := frames[mem := Ptes(Zeros())];
      frames := frames[up := Ptes(frames[up].entries[slot := PA2PTE(mem) + PTE_V])];
      spaces := PutDir(spaces, root, n, mem);
      role := role[mem := Table(root, n)];
      held := held[mem := 0];
      assert S() == AddDir(s1, root, n, mem);
    }

    /** The slot of va in table root, creating table pages on the way if alloc. */
    method Walk(root: int, va: nat, alloc: bool) returns (ok: bool, pg: int, idx: nat)
      requires Inv(S(), {}) && root in spaces && va < MAXVA
      modifies this
      ensures fails == old(fails) + (if !ok && alloc then 1 else 0)
      ensures |freelist| + 2 >= |old(freelist)| && (!ok && alloc ==> |old(freelist)| < 2)
      ensures Inv(S(), {}) && ViewOf(S()) == old(ViewOf(S())) && Grown(old(S()), S(), root)
      ensures !alloc || old(HasDir(spaces, root, LowOf(va / PGSIZE))) ==> S() == old(S())
      ensures old(HasDir(spaces, root, LowOf(va / PGSIZE))) ==> ok
      ensures ok <==> HasDir(spaces, root, LowOf(va / PGSIZE))
      ensures ok ==> pg == DirAt(spaces, root, LowOf(va / PGSIZE)) && idx == LowSlot(va / PGSIZE)
      ensures !ok && alloc ==> freelist == []
    {
      hide Inv, Grown, ViewOf, Bit;
      ghost var v := va / PGSIZE;
      PathOfPage(va);
      var pagetable, level := root, 2;
      RootDir(S(), root);
      GrownRefl(S(), root);
      while level > 0
        invariant 0 <= level <= 2 && Inv(S(), {}) && root in spaces && fails == old(fails)
        invariant |freelist| + 2 - level >= |old(freelist)|
        invariant ViewOf(S()) == old(ViewOf(S())) && Grown(old(S()), S(), root)
        invariant HasDir(spaces, root, NodeAt(level, v)) && pagetable == DirAt(spaces, root, NodeAt(level, v))
        invariant !alloc || old(HasDir(spaces, root, LowOf(v))) ==> S() == old(S())
        decreases level
      {
        ghost var s, n := S(), NodeAt(level - 1, v);
        WalkStep(s, root, v, level);
        var pte := frames[pagetable].entries[PX(level, va)];
        if Bit(pte, PTE_V) {
          pagetable := PTE2PA(pte);
        } else {
          if !alloc {
            return false, 0, 0;
          }
          var mem := NewTable(root, pagetable, PX(level, va), n);
          if mem == 0 {
            return false, 0, 0;
          }
          GrownTrans(old(S()), s, S(), root);
          pagetable := mem;
        }
        level := level - 1;
      }
      return true, pagetable, PX(0, va);
    }

    /** One round of the loop in mappages. */
    method MapPage(root: int, a: nat, pa: int, perm: nat, ghost f: Flags) returns (ok: bool)
      requires Inv(S(), {}) && root in spaces && a < MAXVA && !HasLeaf(spaces, root, a / PGSIZE)
      requires DataFrame(S(), pa) && Mappable(spaces, root, Pte(pa, f)) && PermBits(perm, f)
      modifies this
      ensures fails == old(fails) + (if ok then 0 else 1)
      ensures |freelist| + 2 >= |old(freelist)| && (!ok ==> |old(freelist)| < 2)
      ensures old(HasDir(spaces, root, LowOf(a / PGSIZE))) ==> freelist == old(freelist)
      ensures Inv(S(), {})
      ensures old(HasDir(spaces, root, LowOf(a / PGSIZE))) ==> ok
      ensures ok ==> Mapped1(old(S()), S(), root, a / PGSIZE, Pte(pa, f))
      ensures ok ==> ViewOf(S()) == old(ViewOf(S()))[root := old(ViewOf(S()))[root][a / PGSIZE := old(PageOf(frames, Pte(pa, f)))]]
      ensures !ok ==> Grown(old(S()), S(), root) && ViewOf(S()) == old(ViewOf(S())) && freelist == []
    {
      hide Inv, Grown, ViewOf, PageOf, DataFrame, Mappable, SameDataBut, PermBits, Mapped1, Shape;
      hide Bit, SetBit, PA2PTE, Encode, LowOf, LowSlot, PX, FlagBits;
      ghost var s0 := S();
      var found, pg, idx := Walk(root, a, true);
      if !found {
        return false;
      }
      ghost var s1, v, p := S(), a / PGSIZE, Pte(pa, f);
      PathOfPage(a);
      GrownMappable(s0, s1, root, v, p);
      MapLeafKeeps(s1, root, v, p);
      SlotFacts(s1, root, v);
      MapLeafFacts(s0, s1, root, v, p);
      PermEntry(pa, perm, f);
      assert !Bit(frames[pg].entries[idx], PTE_V);
      frames := frames[pg := Ptes(frames[pg].entries[idx := PA2PTE(pa) + SetBit(perm, PTE_V)])];
      spaces := PutLeaf(spaces, root, v, p);
      held := held[pa := held[pa] - 1];
      assert S() == MapLeaf(s1, root, v, p);
      return true;
    }

    /** One round of the loop in uvmunmap: kfree(PTE2PA(*pte)); *pte = 0. */
    method UnmapPage(root: int, a: nat)
      requires Inv(S(), {}) && a < MAXVA && HasLeaf(spaces, root, a / PGSIZE)
      requires var pa := LeafAt(spaces, root, a / PGSIZE).pa; pa in held && held[pa] >= 0
      modifies this
      ensures fails == old(fails)
      ensures |freelist| >= |old(freelist)|
      ensures Inv(S(), {}) && Unmapped1(old(S()), S(), root, a / PGSIZE)
      ensures ViewOf(S()) == old(ViewOf(S()))[root := old(ViewOf(S()))[root] - {a / PGSIZE}]
    {
      hide Inv, Grown, ViewOf, SameDataBut, Surviving, SlotMatches, LeafStep, Drop, Unmapped1, Shape;
      hide Bit, PTE2PA, PTE_FLAGS, Encode, LowOf, LowSlot, PX, FlagBits;
      ghost var s0, v := S(), a / PGSIZE;
      PathOfPage(a);
      LeafSlot(s0, root, v);
      var found, pg, idx := Walk(root, a, false);
      var pte := frames[pg].entries[idx];
      assert Bit(pte, PTE_V) && PTE_FLAGS(pte) != PTE_V;
      var pa := PTE2PA(pte);
      CutRefKeeps(s0, root, v);
      held := held[pa := held[pa] + 1];
      spaces := CutLeaf(spaces, root, v);
      assert S() == CutRef(s0, root, v);
      Kfree(pa, {pg});
      ghost var s2 := S();
      UnmapMiddle(s0, s2, root, v);
      frames := frames[pg := Ptes(frames[pg].entries[idx := 0])];
      UnmapClear(s2, S(), root, v);
      UnmapEffect(s0, s2, S(), root, v);
    }

    /** Enter PGROUNDDOWN(va) .. PGROUNDDOWN(va+size-1); on failure done pages stay entered. */
    method Mappages(root: int, va: nat, size: nat, pa: int, perm: nat, ghost f: Flags)
      returns (ok: bool, ghost done: nat)
      requires size > 0 && va + size <= MAXVA && Inv(S(), {}) && root in spaces && PermBits(perm, f)
      requires Runs(S(), root, va / PGSIZE, pa, f, PageCount(va, size))
      modifies this
      ensures fails == old(fails) + (if ok then 0 else 1)
      ensures |freelist| + 2 * PageCount(va, size) >= |old(freelist)| && (!ok ==> |old(freelist)| < 2 * PageCount(va, size))
      ensures (forall v :: va / PGSIZE <= v < va / PGSIZE + PageCount(va, size) ==> HasSlot(old(spaces), root, v)) ==> freelist == old(freelist)
      ensures Inv(S(), {}) && MappedN(old(S()), S(), root, va / PGSIZE, pa, f, done)
      ensures ViewOf(S()) == old(ViewOf(S()))[root := SpaceView(old(frames), spaces[root])]
      ensures ok ==> done == PageCount(va, size)
      ensures !ok ==> done < PageCount(va, size) && freelist == []
      ensures (forall v :: va / PGSIZE <= v < va / PGSIZE + PageCount(va, size) ==> HasSlot(old(spaces), root, v)) ==> ok
    {
      hide Inv, Grown, ViewOf, Mapped1, MappedN, PageOf, SpaceView, PermBits, DataFrame, Mappable, PGROUNDDOWN, LowOf, Runs;
      ghost var s0, v0 := S(), va / PGSIZE;
      RoundDown(va, size);
      var a, last, frame := PGROUNDDOWN(va), PGROUNDDOWN(va + size - 1), pa;
      done := 0;
      MappedStart(s0, root, v0, pa, f);
      while true
        invariant 0 <= done < PageCount(va, size) && a == (v0 + done) * PGSIZE && frame == pa + done * PGSIZE
        invariant fails == old(fails) && |freelist| + 2 * done >= |old(freelist)|
        invariant (forall v :: v0 <= v < v0 + PageCount(va, size) ==> HasSlot(old(spaces), root, v)) ==> freelist == old(freelist)
        invariant Inv(S(), {}) && root in spaces && MappedN(s0, S(), root, v0, pa, f, done)
        invariant ViewOf(S()) == old(ViewOf(S()))[root := SpaceView(old(frames), spaces[root])]
        decreases PageCount(va, size) - done
      {
        ghost var s1 := S();
        RunsNext(s0, s1, root, v0, pa, f, done, PageCount(va, size));
        MappedSlot(s0, s1, root, v0, pa, f, done);
        var fine := MapPage(root, a, frame, perm, f);
        if !fine {
          assert !HasSlot(s1.spaces, root, v0 + done);
          MappedGrown(s0, s1, S(), root, v0, pa, f, done);
          return false, done;
        }
        MappedMore(s0, s1, S(), root, v0, pa, f, done, PageCount(va, size));
        done := done + 1;
        if a == last {
          break;
        }
        a := a + PGSIZE;
        frame := frame + PGSIZE;
      }
      ok := true;
    }

    /** Remove npages pages from va on, dropping one reference to each frame. */
    method Uvmunmap(root: int, va: nat, npages: nat)
      requires Inv(S(), {}) && Quiet(S()) && root in spaces && va % PGSIZE == 0
      requires va / PGSIZE + npages <= MAXVPN
      requires forall v :: va / PGSIZE <= v < va / PGSIZE + npages ==> HasLeaf(spaces, root, v)
      modifies this
      ensures fails == old(fails)
      ensures |freelist| >= |old(freelist)|
      ensures Inv(S(), {}) && Quiet(S()) && UnmappedN(old(S()), S(), root, va / PGSIZE, npages)
      ensures ViewOf(S()) == old(ViewOf(S()))[root := old(ViewOf(S()))[root] - Span(va / PGSIZE, npages)]
    {
      hide Inv, ViewOf, Unmapped1, UnmappedN, Quiet, Surviving, SameDataBut;
      ghost var s0, v0, i := S(), va / PGSIZE, 0;
      UnmappedStart(s0, root, v0);
      var a := va;
      while a < va + npages * PGSIZE
        invariant 0 <= i <= npages && a == va + i * PGSIZE && fails == old(fails) && |freelist| >= |old(freelist)|
        invariant Inv(S(), {}) && Quiet(S()) && UnmappedN(s0, S(), root, v0, i)
        invariant ViewOf(S()) == old(ViewOf(S()))[root := old(ViewOf(S()))[root] - Span(v0, i)]
        decreases npages - i
      {
        ghost var s1 := S();
        UnmappedHas(s0, s1, root, v0, i, npages);
        QuietAt(s1, root, v0 + i);
        assert a / PGSIZE == v0 + i;
        UnmapPage(root, a);
        QuietKeeps(s1, S(), root, v0 + i);
        UnmappedNext(s0, s1, S(), root, v0, i);
        SpanStep(old(ViewOf(S()))[root], v0, i);
        a := a + PGSIZE;
        i := i + 1;
      }
    }
  }

  function PageCount(va: nat, size: nat): nat
    requires size > 0
  {
    (va + size - 1) / PGSIZE - va / PGSIZE + 1
  }

  lemma RoundDown(va: nat, size: nat)
    requires size > 0 && va + size <= MAXVA
    ensures PGROUNDDOWN(va) == va / PGSIZE * PGSIZE
    ensures PGROUNDDOWN(va + size - 1) == (va / PGSIZE + PageCount(va, size) - 1) * PGSIZE
    ensures va / PGSIZE + PageCount(va, size) <= MAXVPN
  {
  }

  /** n consecutive frames may be entered at n consecutive unmapped pages. */
  ghost predicate Runs(s: State, r: int, v: int, pa: int, f: Flags, n: nat) {
    forall j :: 0 <= j < n ==>
      !HasLeaf(s.spaces, r, v + j) && DataFrame(s, pa + j * PGSIZE) && Mappable(s.spaces, r, Pte(pa + j * PGSIZE, f))
  }

  lemma MappedStart(s: State, r: int, v: int, pa: int, f: Flags)
    requires Inv(s, {}) && r in s.spaces
    ensures MappedN(s, s, r, v, pa, f, 0)
    ensures ViewOf(s) == ViewOf(s)[r := SpaceView(s.frames, s.spaces[r])]
  {
    hide DirsOk, NodesOk, LeavesOk, SharingOk, CountsOk, FreeOk;
    MappedZero(s, r, v, pa, f);
  }

  lemma RunsNext(s: State, t: State, r: int, v: int, pa: int, f: Flags, k: nat, n: nat)
    requires Inv(s, {}) && MappedN(s, t, r, v, pa, f, k) && Runs(s, r, v, pa, f, n) && k < n
    ensures r in t.spaces && !HasLeaf(t.spaces, r, v + k) && DataFrame(t, pa + k * PGSIZE)
    ensures Mappable(t.spaces, r, Pte(pa + k * PGSIZE, f))
  {
    hide Inv;
    var q := pa + k * PGSIZE;
    var p := Pte(q, f);
    assert !HasLeaf(s.spaces, r, v + k) && DataFrame(s, q) && Mappable(s.spaces, r, p);
    forall r0, w | HasLeaf(t.spaces, r0, w) && LeafAt(t.spaces, r0, w).pa == q
      ensures HasLeaf(s.spaces, r0, w) && LeafAt(s.spaces, r0, w) == LeafAt(t.spaces, r0, w)
    {
    }
    forall x ensures x in Refs(t.spaces, q) ==> x in Refs(s.spaces, q) {
      if x in Refs(t.spaces, q) { assert HasLeaf(t.spaces, x.0, x.1); }
    }
  }

  lemma MappedSlot(s: State, t: State, r: int, v: int, pa: int, f: Flags, k: nat)
    requires MappedN(s, t, r, v, pa, f, k) && v >= 0
    ensures HasSlot(s.spaces, r, v + k) ==> HasSlot(t.spaces, r, v + k)
  {
  }

  lemma MappedGrown(s: State, t: State, u: State, r: int, v: int, pa: int, f: Flags, k: nat)
    requires MappedN(s, t, r, v, pa, f, k) && Grown(t, u, r) && Inv(s, {}) && Inv(t, {})
    requires ViewOf(t) == ViewOf(s)[r := SpaceView(s.frames, t.spaces[r])] && ViewOf(u) == ViewOf(t)
    ensures MappedN(s, u, r, v, pa, f, k) && r in u.spaces
    ensures forall w :: w >= 0 && HasSlot(s.spaces, r, w) ==> HasSlot(t.spaces, r, w)
    ensures ViewOf(u) == ViewOf(s)[r := SpaceView(s.frames, u.spaces[r])]
  {
    hide Inv, ViewOf;
    assert SpaceView(s.frames, u.spaces[r]) == SpaceView(s.frames, t.spaces[r]);
  }

  lemma MappedMore(s: State, t: State, u: State, r: int, v: int, pa: int, f: Flags, k: nat, n: nat)
    requires MappedN(s, t, r, v, pa, f, k) && Mapped1(t, u, r, v + k, Pte(pa + k * PGSIZE, f))
    requires Inv(s, {}) && Inv(u, {}) && k < n && Runs(s, r, v, pa, f, n)
    ensures MappedN(s, u, r, v, pa, f, k + 1) && r in u.spaces
    ensures ViewOf(u) == ViewOf(s)[r := SpaceView(s.frames, u.spaces[r])]
  {
    hide DirsOk, NodesOk, SharingOk, CountsOk, FreeOk, Mappable;
    assert DataFrame(s, pa + k * PGSIZE);
    MappedNext(s, t, u, r, v, pa, f, k);
    forall w | w in u.spaces[r].leaves
      ensures u.spaces[r].leaves[w].pa in s.frames && s.role[u.spaces[r].leaves[w].pa].Data?
    {
      if v <= w < v + k + 1 {
        assert DataFrame(s, pa + (w - v) * PGSIZE);
      } else {
        assert HasLeaf(s.spaces, r, w) && LeafOk(s, r, w);
      }
    }
    MappedView(s, u, r);
  }

  lemma UnmappedStart(s: State, r: int, v: int)
    requires Inv(s, {}) && r in s.spaces
    ensures UnmappedN(s, s, r, v, 0)
    ensures ViewOf(s) == ViewOf(s)[r := ViewOf(s)[r] - Span(v, 0)]
  {
    hide DirsOk, NodesOk, LeavesOk, SharingOk, CountsOk, FreeOk;
    assert Span(v, 0) == {};
    assert s.spaces[r].leaves - {} == s.spaces[r].leaves;
    assert ViewOf(s)[r] - {} == ViewOf(s)[r];
  }

  lemma UnmappedHas(s: State, t: State, r: int, lo: int, i: nat, n: nat)
    requires UnmappedN(s, t, r, lo, i) && i < n && HasLeaf(s.spaces, r, lo + i)
    ensures HasLeaf(t.spaces, r, lo + i)
  {
  }

  lemma QuietAt(s: State, r: int, v: int)
    requires Quiet(s) && HasLeaf(s.spaces, r, v)
    ensures var pa := LeafAt(s.spaces, r, v).pa; pa in s.held && s.held[pa] == 0
  {
  }

  lemma QuietKeeps(s: State, t: State, r: int, v: int)
    requires Quiet(s) && Unmapped1(s, t, r, v) && Inv(s, {}) && Inv(t, {})
    ensures Quiet(t)
  {
    hide DirsOk, NodesOk, SharingOk, CountsOk, FreeOk;
    forall q, w | HasLeaf(t.spaces, q, w)
      ensures LeafAt(t.spaces, q, w).pa in t.held && t.held[LeafAt(t.spaces, q, w).pa] == 0
    {
      assert HasLeaf(s.spaces, q, w) && LeafAt(s.spaces, q, w) == LeafAt(t.spaces, q, w);
      assert LeafOk(t, q, w) && LeafOk(s, q, w);
    }
  }

  lemma SpanStep(m: map<int, Page>, lo: int, i: nat)
    ensures m - Span(lo, i) - {lo + i} == m - Span(lo, i + 1)
  {
    assert Span(lo, i + 1) == Span(lo, i) + {lo + i};
  }

  function FrameAt(start: int, i: int): int { start + i * PGSIZE }
  ghost function FrameRun(start: int, n: nat): set<int> { set i | 0 <= i < n :: FrameAt(start, i) }

  lemma FrameNew(start: int, i: nat)
    requires Aligned(start)
    ensures Aligned(start + i * PGSIZE) && FrameAt(start, i) !in FrameRun(start, i)
  {
  }

  /** A frame the allocator has not seen before, with the reference that freerange gives it. */
  function NewFrame(s: State, pa: int): State {
    s.(frames := s.frames[pa := Bytes(Fill(0))], ref := s.ref[pa := 1], role := s.role[pa := Data], held := s.held[pa := 1])
  }

  lemma NewFrameKeeps(s: State, pa: int)
    requires Inv(s, {}) && pa !in s.frames && Aligned(pa)
    ensures Inv(NewFrame(s, pa), {}) && ViewOf(NewFrame(s, pa)) == ViewOf(s)
  {
    hide SharingOk, DirsOk, NodesOk, ViewOf;
    var t := NewFrame(s, pa);
    forall x ensures x !in Refs(s.spaces, pa) { assert HasLeaf(s.spaces, x.0, x.1) ==> LeafOk(s, x.0, x.1); }
    assert Refs(s.spaces, pa) == {};
    assert Shape(t) && FreeOk(t) && CountsOk(t);
    NewFrameTables(s, t, pa);
  }

  lemma NewFrameDrop(s: State, pa: int)
    ensures var t := NewFrame(s, pa); var u := Drop(t, pa);
      && u.free == [pa] + s.free && u.spaces == s.spaces && u.frames.Keys == s.frames.Keys + {pa}
      && (Tidy(s) ==> Tidy(u))
  {
  }

  lemma NewFrameTables(s: State, t: State, pa: int)
    requires Inv(s, {}) && pa !in s.frames && Shape(t) && t == NewFrame(s, pa)
    ensures DirsOk(t) && NodesOk(t, {}) && LeavesOk(t) && ViewOf(t) == ViewOf(s)
  {
    hide FreeOk, CountsOk, SharingOk, ViewOf;
    forall r, n | HasDir(t.spaces, r, n) ensures DirOk(t, r, n) { assert DirOk(s, r, n); }
    assert DirsOk(t);
    forall r, n | HasDir(t.spaces, r, n) ensures NodeOk(t, r, n) { assert DirOk(s, r, n) && NodeOk(s, r, n); }
    forall r, v | HasLeaf(t.spaces, r, v)
      ensures LeafOk(t, r, v) && PageOf(s.frames, LeafAt(s.spaces, r, v)) == PageOf(t.frames, LeafAt(t.spaces, r, v))
    {
      assert LeafOk(s, r, v);
    }
    SameView(s, t);
  }

  /** perm is the integer the C code passes for permissions f, with or without PTE_V. */
  ghost predicate PermBits(perm: nat, f: Flags) {
    perm == FlagBits(f) || perm == FlagBits(f) + 1
  }

  lemma PermEntry(pa: nat, perm: nat, f: Flags)
    requires PermBits(perm, f)
    ensures PA2PTE(pa) + SetBit(perm, PTE_V) == Encode(Pte(pa, f))
  {
    FlagBitsFields(f);
  }

  lemma GrownMappable(s: State, t: State, r: int, v: nat, p: Pte)
    requires Inv(s, {}) && Inv(t, {}) && Grown(s, t, r) && r in s.spaces && !HasLeaf(s.spaces, r, v)
    requires DataFrame(s, p.pa) && Mappable(s.spaces, r, p)
    ensures !HasLeaf(t.spaces, r, v) && DataFrame(t, p.pa) && Mappable(t.spaces, r, p)
    ensures PageOf(t.frames, p) == PageOf(s.frames, p)
  {
    hide Inv;
    assert SameLeaves(s.spaces, t.spaces) by {
      forall q | q in s.spaces ensures t.spaces[q].leaves == s.spaces[q].leaves {}
    }
    forall q, w | HasLeaf(t.spaces, q, w) ensures HasLeaf(s.spaces, q, w) && LeafAt(s.spaces, q, w) == LeafAt(t.spaces, q, w) {}
    RefsSame(s.spaces, t.spaces, p.pa);
  }

  /** The table page that holds the slot of v, and what an empty slot looks like. */
  lemma SlotFacts(s: State, r: int, v: nat)
    requires Inv(s, {}) && HasDir(s.spaces, r, LowOf(v)) && v < MAXVPN
    ensures var pg := DirAt(s.spaces, r, LowOf(v));
      && pg in s.frames && s.frames[pg].Ptes? && |s.frames[pg].entries| == NPTE && LowSlot(v) < NPTE
      && (!HasLeaf(s.spaces, r, v) ==> !Bit(s.frames[pg].entries[LowSlot(v)], PTE_V))
  {
    assert DirOk(s, r, LowOf(v)) && NodeOk(s, r, LowOf(v));
    EntryHere(s.spaces[r], v);
  }

  lemma MapLeafFacts(s: State, t: State, r: int, v: nat, p: Pte)
    requires Inv(s, {}) && Inv(t, {}) && Grown(s, t, r) && r in s.spaces && v < MAXVPN
    requires HasDir(t.spaces, r, LowOf(v)) && DataFrame(s, p.pa) && DataFrame(t, p.pa)
    ensures p.pa in t.held && p.pa > 0
    ensures Mapped1(s, MapLeaf(t, r, v, p), r, v, p)
  {
    hide FreeOk, DirsOk, NodesOk, SharingOk, CountsOk, LeavesOk, LeafStep, SlotMatches;
    MapLeafStep(t, r, v, p);
  }

  /** The raw slot of a mapped page: valid, a leaf, naming its frame. */
  lemma LeafSlot(s: State, r: int, v: nat)
    requires Inv(s, {}) && HasLeaf(s.spaces, r, v)
    ensures v < MAXVPN && HasDir(s.spaces, r, LowOf(v))
    ensures var pg, p := DirAt(s.spaces, r, LowOf(v)), LeafAt(s.spaces, r, v);
      && pg in s.frames && s.frames[pg].Ptes? && |s.frames[pg].entries| == NPTE && LowSlot(v) < NPTE
      && p.pa in s.frames && p.pa in s.held && p.pa in s.ref && p.pa in s.role && s.role[p.pa].Data? && Aligned(p.pa) && pg != p.pa
      && s.frames[pg].entries[LowSlot(v)] == Encode(p)
      && PTE2PA(Encode(p)) == p.pa && Bit(Encode(p), PTE_V) && PTE_FLAGS(Encode(p)) == FlagBits(p.flags) + 1
      && PTE_FLAGS(Encode(p)) != PTE_V
  {
    assert LeafOk(s, r, v) && DirOk(s, r, LowOf(v)) && NodeOk(s, r, LowOf(v));
    EntryHere(s.spaces[r], v);
    EncodeFields(LeafAt(s.spaces, r, v));
  }

  /** After kfree the entry is gone from the flat map and only its raw slot is stale. */
  lemma UnmapMiddle(s: State, t: State, r: int, v: nat)
    requires Inv(s, {}) && HasLeaf(s.spaces, r, v) && v < MAXVPN && HasDir(s.spaces, r, LowOf(v))
    requires LeafAt(s.spaces, r, v).pa in s.held && LeafAt(s.spaces, r, v).pa in s.ref
    requires t == Drop(CutRef(s, r, v), LeafAt(s.spaces, r, v).pa)
    ensures !HasLeaf(t.spaces, r, v) && HasDir(t.spaces, r, LowOf(v))
    ensures var pg := DirAt(s.spaces, r, LowOf(v));
      && pg == DirAt(t.spaces, r, LowOf(v)) && pg in s.frames && pg in t.frames && t.frames[pg] == s.frames[pg]
      && t.frames[pg].Ptes? && |t.frames[pg].entries| == NPTE
      && forall i :: 0 <= i < NPTE && i != LowSlot(v) ==> t.frames[pg].entries[i] == Entry(t.spaces[r], LowOf(v), i)
  {
    hide FreeOk, SharingOk, CountsOk;
    assert LeafOk(s, r, v) && DirOk(s, r, LowOf(v)) && NodeOk(s, r, LowOf(v));
    forall i | 0 <= i < NPTE && i != LowSlot(v)
      ensures Entry(s.spaces[r], LowOf(v), i) == Entry(t.spaces[r], LowOf(v), i)
    {
      EntryElsewhere(s.spaces[r], t.spaces[r], LowOf(v), i, v);
    }
  }

  lemma UnmapClear(t: State, u: State, r: int, v: nat)
    requires v < MAXVPN && HasDir(t.spaces, r, LowOf(v)) && !HasLeaf(t.spaces, r, v)
    requires var pg := DirAt(t.spaces, r, LowOf(v));
      && Inv(t, {pg}) && pg in t.frames && t.frames[pg].Ptes? && |t.frames[pg].entries| == NPTE
      && (forall i :: 0 <= i < NPTE && i != LowSlot(v) ==> t.frames[pg].entries[i] == Entry(t.spaces[r], LowOf(v), i))
      && u == t.(frames := Poke(t.frames, pg, LowSlot(v), 0))
    ensures Inv(u, {}) && ViewOf(u) == ViewOf(t)
  {
    hide FreeOk, SharingOk, CountsOk, LeavesOk, DirsOk, NodesOk, ViewOf;
    EntryHere(u.spaces[r], v);
    ClearSlotKeeps(t, u, r, v);
  }

  lemma UnmapEffect(s: State, t: State, u: State, r: int, v: nat)
    requires Inv(s, {}) && HasLeaf(s.spaces, r, v) && v < MAXVPN && HasDir(s.spaces, r, LowOf(v))
    requires LeafAt(s.spaces, r, v).pa in s.held && LeafAt(s.spaces, r, v).pa in s.ref
    requires t == Drop(CutRef(s, r, v), LeafAt(s.spaces, r, v).pa)
    requires var pg := DirAt(s.spaces, r, LowOf(v));
      && pg in t.frames && pg in u.frames && u == t.(frames := t.frames[pg := u.frames[pg]])
    ensures Unmapped1(s, u, r, v)
  {
    hide FreeOk, SharingOk, CountsOk, NodesOk;
    assert LeafOk(s, r, v) && DirOk(s, r, LowOf(v));
  }

  lemma KeysOf(s: State, ex: set<int>)
    requires Inv(s, ex)
    ensures s.frames.Keys == s.ref.Keys == s.role.Keys == s.held.Keys
  {
  }

  lemma AllocFirst(s: State)
    requires Inv(s, {})
    ensures |s.free| > 0 ==> s.free[0] in s.frames && s.free[0] > 0
  {
    if |s.free| > 0 {
      assert s.free[0] in s.free;
      assert Aligned(s.free[0]);
    }
  }

  lemma AddDirFacts(s: State, t: State, r: int, n: Node, pa: nat)
    requires Inv(s, {}) && |s.free| > 0 && pa == s.free[0] && t == Alloc(s) && Inv(t, {})
    requires n.InRange() && n != Root && HasDir(s.spaces, r, n.Parent()) && Fresh(t, pa)
    ensures var up := DirAt(s.spaces, r, n.Parent());
      up in t.frames && t.frames[up].Ptes? && |t.frames[up].entries| == NPTE && up != pa
    ensures Grown(s, AddDir(t, r, n, pa), r)
  {
    hide SharingOk, CountsOk, LeavesOk;
    assert pa in s.free;
    assert DirOk(s, r, n.Parent()) && NodeOk(s, r, n.Parent());
  }

  lemma RootDir(s: State, r: int)
    requires Inv(s, {}) && r in s.spaces
    ensures HasDir(s.spaces, r, Root) && DirAt(s.spaces, r, Root) == r
  {
  }

  lemma GrownRefl(s: State, r: int)
    ensures Grown(s, s, r)
  {
  }

  lemma GrownTrans(s: State, t: State, u: State, r: int)
    requires Grown(s, t, r) && Grown(t, u, r)
    ensures Grown(s, u, r)
  {
  }

  /** What walk reads at one level says whether the next table page exists, and where. */
  lemma WalkStep(s: State, r: int, v: nat, level: nat)
    requires Inv(s, {}) && v < MAXVPN && 1 <= level <= 2 && HasDir(s.spaces, r, NodeAt(level, v))
    ensures var n, c := NodeAt(level, v), NodeAt(level - 1, v);
      && c.InRange() && c != Root && c.Parent() == n && n.Child(c.Slot()) == c
      && DirOk(s, r, n) && NodeOk(s, r, n)
      && c.Slot() == (if level == 2 then v / 0x4_0000 else v / 512 % 512)
      && (var e := s.frames[DirAt(s.spaces, r, n)].entries[c.Slot()];
          && (Bit(e, PTE_V) <==> HasDir(s.spaces, r, c))
          && (HasDir(s.spaces, r, c) ==> PTE2PA(e) == DirAt(s.spaces, r, c)))
      && (HasDir(s.spaces, r, LowOf(v)) ==> HasDir(s.spaces, r, c))
  {
    var n, c := NodeAt(level, v), NodeAt(level - 1, v);
    assert DirOk(s, r, n) && NodeOk(s, r, n);
    if HasDir(s.spaces, r, c) {
      assert DirOk(s, r, c);
      DirFields(DirAt(s.spaces, r, c));
    }
    var low := LowOf(v);
    assert HasDir(s.spaces, r, Low(low.a, low.b)) ==> HasDir(s.spaces, r, Mid(low.a));
  }
}
