/** Copy-on-write fork and the fault handler (xv6-labs-cow/vm.c:301-368, trap.c:20-62), and the
    eager fork they replace (xv6-lab-pagetables/kernel/vm.c:300-328), over the raw kernel memory. */
module CowFork {
  import opened Sv39
  import opened KernelState
  import opened CowKernel
  import opened UserMemory

  // ---------------------------------------------------------------- facts about views

  lemma ViewKeys(s: State, r: int)
    requires r in s.spaces
    ensures ViewOf(s).Keys == s.spaces.Keys && ViewOf(s)[r].Keys == s.spaces[r].leaves.Keys
    ensures forall v :: v in s.spaces[r].leaves ==> ViewOf(s)[r][v] == PageOf(s.frames, s.spaces[r].leaves[v])
  {
  }

  lemma ViewPages(s: State, r: int)
    requires Inv(s, {}) && r in s.spaces
    ensures WholePages(ViewOf(s)[r])
  {
    hide FreeOk, DirsOk, NodesOk, SharingOk, CountsOk;
    forall v | v in ViewOf(s)[r] ensures 0 <= v < MAXVPN && |ViewOf(s)[r][v].data| == PGSIZE {
      assert HasLeaf(s.spaces, r, v) && LeafOk(s, r, v);
    }
  }

  /** Every page of the copy names the frame that the original names there. */
  ghost predicate SubTable(ss: Spaces, copy: int, orig: int) {
    forall v :: HasLeaf(ss, copy, v) ==> HasLeaf(ss, orig, v) && LeafAt(ss, copy, v).pa == LeafAt(ss, orig, v).pa
  }

  function Shared(p: Pte): Pte { p.(flags := p.flags.(w := false, cow := true)) }
  function Split(p: Pte, mem: int): Pte { Pte(mem, p.flags.(w := true, cow := false)) }

  /** The entry of page v in table r loses PTE_W and gains PTE_COW. */
  method ShareEntry(k: Kernel, root: int, va: nat) returns (pa: int, perm: nat)
    requires Inv(k.S(), {}) && Quiet(k.S()) && va < MAXVA && HasLeaf(k.spaces, root, va / PGSIZE)
    modifies k
    ensures k.fails == old(k.fails)
    ensures Inv(k.S(), {}) && Quiet(k.S()) && ViewOf(k.S()) == old(ViewOf(k.S()))
    ensures var p := LeafAt(old(k.spaces), root, va / PGSIZE);
      && pa == p.pa && perm == FlagBits(Shared(p).flags) + 1
      && k.spaces == PutLeaf(old(k.spaces), root, va / PGSIZE, Shared(p))
    ensures k.frames.Keys == old(k.frames).Keys && k.role == old(k.role) && k.held == old(k.held) && k.refcnt == old(k.refcnt) && k.freelist == old(k.freelist)
  {
    hide Inv, ViewOf, Grown, Quiet, Bit, PTE2PA, PTE_FLAGS, Encode, LowOf, LowSlot, PX, FlagBits, SetBit, ClearBit, PA2PTE;
    ghost var s0, v := k.S(), va / PGSIZE;
    ghost var p := LeafAt(s0.spaces, root, v);
    LeafSlot(s0, root, v);
    var found, pg, idx := k.Walk(root, va, false);
    var pte := k.frames[pg].entries[idx];
    pa := PTE2PA(pte);
    perm := SetBit(ClearBit(PTE_FLAGS(pte), PTE_W), PTE_COW);
    ShareBitsEntry(p);
    ReflagKeeps(s0, root, v, Shared(p));
    k.frames := k.frames[pg := Ptes(k.frames[pg].entries[idx := PA2PTE(pa) + perm])];
    k.spaces := PutLeaf(k.spaces, root, v, Shared(p));
    assert k.S() == Reflag(s0, root, v, Shared(p));
    ReflagQuiet(s0, k.S(), root, v, Shared(p));
  }

  lemma ShareBitsEntry(p: Pte)
    requires Aligned(p.pa)
    ensures var perm := SetBit(ClearBit(PTE_FLAGS(Encode(p)), PTE_W), PTE_COW);
      PA2PTE(p.pa) + perm == Encode(Shared(p)) && perm == FlagBits(Shared(p).flags) + 1
  {
    ShareBits(p);
  }

  lemma ReflagQuiet(s: State, t: State, r: int, v: int, p: Pte)
    requires Quiet(s) && HasLeaf(s.spaces, r, v) && p.pa == LeafAt(s.spaces, r, v).pa
    requires t.spaces == PutLeaf(s.spaces, r, v, p) && t.held == s.held
    ensures Quiet(t)
  {
    forall q, w | HasLeaf(t.spaces, q, w)
      ensures LeafAt(t.spaces, q, w).pa in t.held && t.held[LeafAt(t.spaces, q, w).pa] == 0
    {
      assert HasLeaf(s.spaces, q, w) && LeafAt(s.spaces, q, w).pa == LeafAt(t.spaces, q, w).pa;
    }
  }

  /** After the reflag, the frame may be entered in the copy. */
  lemma ShareMappable(s: State, t: State, copy: int, orig: int, v: nat)
    requires Inv(s, {}) && Inv(t, {}) && HasLeaf(s.spaces, orig, v) && SubTable(s.spaces, copy, orig)
    requires copy in s.spaces && copy != orig && !HasLeaf(s.spaces, copy, v) && t.role == s.role
    requires t.spaces == PutLeaf(s.spaces, orig, v, Shared(LeafAt(s.spaces, orig, v)))
    ensures var p := Shared(LeafAt(s.spaces, orig, v)); Runs(t, copy, v, p.pa, p.flags, 1)
    ensures SubTable(t.spaces, copy, orig)
    ensures copy in t.spaces && t.spaces.Keys == s.spaces.Keys && |t.spaces| == |s.spaces|
  {
    hide DirsOk, NodesOk, FreeOk, CountsOk;
    KeysCard(s.spaces, t.spaces);
    forall w | HasLeaf(t.spaces, copy, w)
      ensures HasLeaf(t.spaces, orig, w) && LeafAt(t.spaces, copy, w).pa == LeafAt(t.spaces, orig, w).pa
    {
      assert HasLeaf(s.spaces, copy, w) && HasLeaf(s.spaces, orig, w);
    }
    var p := Shared(LeafAt(s.spaces, orig, v));
    assert HasLeaf(t.spaces, orig, v) && LeafOk(t, orig, v) && LeafAt(t.spaces, orig, v) == p;
    forall q, w | HasLeaf(t.spaces, q, w) && LeafAt(t.spaces, q, w).pa == p.pa
      ensures !LeafAt(t.spaces, q, w).flags.w && q != copy
    {
      assert HasLeaf(s.spaces, q, w) && LeafAt(s.spaces, q, w).pa == p.pa;
      RefOf(t.spaces, orig, v);
      RefOf(t.spaces, q, w);
    }
    assert Mappable(t.spaces, copy, p);
    forall j | 0 <= j < 1 ensures !HasLeaf(t.spaces, copy, v + j) && DataFrame(t, p.pa + j * PGSIZE)
      && Mappable(t.spaces, copy, Pte(p.pa + j * PGSIZE, p.flags))
    {
      assert p.pa + j * PGSIZE == p.pa && Pte(p.pa, p.flags) == p;
    }
  }

  lemma KeysCard(ss: Spaces, tt: Spaces)
    requires ss.Keys == tt.Keys
    ensures |ss| == |tt|
  {
    assert |ss| == |ss.Keys| && |tt| == |tt.Keys|;
  }

  lemma OnePageCount(va: nat)
    requires va % PGSIZE == 0
    ensures PageCount(va, PGSIZE) == 1
  {
  }

  /** What the copy shows after one more page was entered. */
  lemma OneMapped(s: State, t: State, r: int, v: int, pa: int, f: Flags)
    requires MappedN(s, t, r, v, pa, f, 1) && ViewOf(t) == ViewOf(s)[r := SpaceView(s.frames, t.spaces[r])]
    ensures t.spaces[r].leaves == s.spaces[r].leaves[v := Pte(pa, f)]
    ensures t.spaces.Keys == s.spaces.Keys && |t.spaces| == |s.spaces|
    ensures ViewOf(t) == ViewOf(s)[r := ViewOf(s)[r][v := PageOf(s.frames, Pte(pa, f))]]
  {
    hide PageOf;
    KeysCard(s.spaces, t.spaces);
    var m := s.spaces[r].leaves;
    assert MapLeaves(m, v, pa, f, 1) == m[v := Pte(pa, f)];
    var sv := SpaceView(s.frames, s.spaces[r]);
    assert SpaceView(s.frames, t.spaces[r]) == sv[v := PageOf(s.frames, Pte(pa, f))];
  }

  lemma NoneMapped(s: State, t: State, r: int, v: int, pa: int, f: Flags)
    requires MappedN(s, t, r, v, pa, f, 0) && ViewOf(t) == ViewOf(s)[r := SpaceView(s.frames, t.spaces[r])]
    requires Inv(s, {}) && Inv(t, {})
    ensures t.spaces[r].leaves == s.spaces[r].leaves && ViewOf(t) == ViewOf(s)
    ensures SameLeaves(s.spaces, t.spaces)
    ensures Quiet(s) ==> Quiet(t)
  {
    hide DirsOk, NodesOk, FreeOk, CountsOk, SharingOk;
    var m := s.spaces[r].leaves;
    assert MapLeaves(m, v, pa, f, 0) == m;
    var sv := SpaceView(s.frames, s.spaces[r]);
    assert SpaceView(s.frames, t.spaces[r]) == sv;
    forall q | q in s.spaces ensures t.spaces[q].leaves == s.spaces[q].leaves {}
    forall q, w | HasLeaf(t.spaces, q, w) && Quiet(s)
      ensures LeafAt(t.spaces, q, w).pa in t.held && t.held[LeafAt(t.spaces, q, w).pa] == 0
    {
      assert HasLeaf(s.spaces, q, w) && LeafAt(s.spaces, q, w) == LeafAt(t.spaces, q, w) && LeafOk(s, q, w);
    }
  }

  /** One round of the copy-on-write uvmcopy. */
  method SharePage(k: Kernel, orig: int, copy: int, va: nat) returns (ok: bool)
    requires Inv(k.S(), {}) && Quiet(k.S()) && va < MAXVA && va % PGSIZE == 0 && |k.spaces| <= 255
    requires HasLeaf(k.spaces, orig, va / PGSIZE) && copy in k.spaces && copy != orig
    requires SubTable(k.spaces, copy, orig) && !HasLeaf(k.spaces, copy, va / PGSIZE)
    modifies k
    ensures k.fails == old(k.fails) + (if ok then 0 else 1)
    ensures |k.freelist| + 2 >= |old(k.freelist)| && (!ok ==> |old(k.freelist)| < 2)
    ensures Inv(k.S(), {}) && Quiet(k.S()) && k.spaces.Keys == old(k.spaces).Keys && SubTable(k.spaces, copy, orig)
    ensures var w := old(ViewOf(k.S()));
      ok ==> ViewOf(k.S()) == w[copy := w[copy][va / PGSIZE := w[orig][va / PGSIZE]]]
    ensures !ok ==> ViewOf(k.S()) == old(ViewOf(k.S())) && k.freelist == []
    ensures Steady(old(k.S()), k.S())
    ensures var old1 := LeafAt(old(k.spaces), orig, va / PGSIZE);
      && EntryIs(k.spaces, orig, va / PGSIZE, Shared(old1)) && (ok ==> EntryIs(k.spaces, copy, va / PGSIZE, Shared(old1)))
      && EntriesElsewhere(old(k.spaces), k.spaces, orig, copy, va / PGSIZE)
  {
    hide Inv, ViewOf, Quiet, SubTable, Mappable, Runs, MappedN, PageOf, FlagBits, Steady, EntriesElsewhere, EntryIs;
    ghost var s0, v := k.S(), va / PGSIZE;
    ghost var p := Shared(LeafAt(s0.spaces, orig, v));
    LeafSlot(s0, orig, v);
    var pa, perm := ShareEntry(k, orig, va);
    ghost var s1 := k.S();
    ShareMappable(s0, s1, copy, orig, v);
    OnePageCount(va);
    var fine, done := k.Mappages(copy, va, PGSIZE, pa, perm, p.flags);
    ghost var s2 := k.S();
    if !fine {
      NoneMapped(s1, s2, copy, v, pa, p.flags);
      SubSame(s1.spaces, s2.spaces, copy, orig);
      ShareUndone(s0, s1, s2, copy, orig, v, p, pa);
      return false;
    }
    OneMapped(s1, s2, copy, v, pa, p.flags);
    ShareCount(s1, s2, copy, orig, v, p);
    k.Increfcnt(pa);
    k.held := k.held[pa := k.held[pa] + 1];
    IncKeeps(s2, pa, {});
    ShareDone(s0, s1, s2, k.S(), copy, orig, v);
    ShareEntries(s0, s1, s2, k.S(), copy, orig, v, p);
    return true;
  }

  ghost predicate EntryIs(ss: Spaces, r: int, v: int, p: Pte) { HasLeaf(ss, r, v) && LeafAt(ss, r, v) == p }

  /** No entry changed but page v of two tables. */
  ghost predicate EntriesElsewhere(ss: Spaces, tt: Spaces, r: int, r': int, v: int) {
    && (forall q, w :: HasLeaf(ss, q, w) && !(w == v && (q == r || q == r')) ==> HasLeaf(tt, q, w) && LeafAt(tt, q, w) == LeafAt(ss, q, w))
    && forall q, w :: HasLeaf(tt, q, w) && !(w == v && (q == r || q == r')) ==> HasLeaf(ss, q, w)
  }

  lemma ShareUndone(s: State, t: State, u: State, copy: int, orig: int, v: int, p: Pte, pa: int)
    requires HasLeaf(s.spaces, orig, v) && t.spaces == PutLeaf(s.spaces, orig, v, p) && SameLeaves(t.spaces, u.spaces)
    requires t.frames.Keys == s.frames.Keys && t.role == s.role && t.held == s.held && MappedN(t, u, copy, v, pa, p.flags, 0)
    ensures Steady(s, u) && EntryIs(u.spaces, orig, v, p) && EntriesElsewhere(s.spaces, u.spaces, orig, copy, v)
  {
    assert HasLeaf(t.spaces, orig, v);
    forall q, w | HasLeaf(s.spaces, q, w) && (q, w) != (orig, v) ensures HasLeaf(u.spaces, q, w) && LeafAt(u.spaces, q, w) == LeafAt(s.spaces, q, w) {
      assert HasLeaf(t.spaces, q, w);
    }
    forall q, w | HasLeaf(u.spaces, q, w) && (q, w) != (orig, v) ensures HasLeaf(s.spaces, q, w) { assert HasLeaf(t.spaces, q, w); }
  }

  lemma ShareEntries(s: State, t: State, u: State, x: State, copy: int, orig: int, v: int, p: Pte)
    requires HasLeaf(s.spaces, orig, v) && t.spaces == PutLeaf(s.spaces, orig, v, p) && copy != orig && copy in t.spaces
    requires t.frames.Keys == s.frames.Keys && t.role == s.role && t.held == s.held && MappedN(t, u, copy, v, p.pa, p.flags, 1)
    requires u.spaces[copy].leaves == t.spaces[copy].leaves[v := p] && p.pa in u.held && p.pa in u.ref && x == Inc(u, p.pa)
    requires p.pa in t.role && t.role[p.pa].Data?
    ensures Steady(s, x) && EntryIs(x.spaces, orig, v, p) && EntryIs(x.spaces, copy, v, p) && EntriesElsewhere(s.spaces, x.spaces, orig, copy, v)
  {
    assert HasLeaf(u.spaces, orig, v) && HasLeaf(u.spaces, copy, v);
    forall q ensures InRun(q, p.pa, 1) <==> q == p.pa { InRunOne(q, p.pa); }
    forall q, w | HasLeaf(s.spaces, q, w) && !(w == v && (q == orig || q == copy)) ensures HasLeaf(x.spaces, q, w) && LeafAt(x.spaces, q, w) == LeafAt(s.spaces, q, w) {
      assert HasLeaf(t.spaces, q, w);
    }
    forall q, w | HasLeaf(x.spaces, q, w) && !(w == v && (q == orig || q == copy)) ensures HasLeaf(s.spaces, q, w) { assert HasLeaf(t.spaces, q, w); }
  }

  lemma SubSame(ss: Spaces, tt: Spaces, copy: int, orig: int)
    requires SubTable(ss, copy, orig) && SameLeaves(ss, tt)
    ensures SubTable(tt, copy, orig)
  {
  }

  /** The count of a shared frame stays below the number of tables, hence below 255 before ++. */
  lemma ShareCount(s: State, t: State, copy: int, orig: int, v: int, p: Pte)
    requires Inv(s, {}) && Inv(t, {}) && Quiet(s) && MappedN(s, t, copy, v, p.pa, p.flags, 1) && |t.spaces| <= 255
    requires HasLeaf(s.spaces, orig, v) && LeafAt(s.spaces, orig, v) == p
    ensures p.pa in t.frames && p.pa in t.ref && p.pa in t.held && t.role[p.pa].Data? && t.ref[p.pa] < 255
  {
    hide DirsOk, NodesOk, FreeOk;
    assert LeafOk(s, orig, v);
    RefsBounded(t.spaces, p.pa);
    assert InRun(p.pa, p.pa, 1);
    assert t.held[p.pa] == -1;
  }

  lemma ShareDone(s: State, t: State, u: State, x: State, copy: int, orig: int, v: int)
    requires Inv(s, {}) && Inv(t, {}) && Inv(u, {}) && Inv(x, {}) && Quiet(t) && HasLeaf(s.spaces, orig, v)
    requires copy != orig && copy in s.spaces && ViewOf(t) == ViewOf(s)
    requires t.spaces == PutLeaf(s.spaces, orig, v, Shared(LeafAt(s.spaces, orig, v)))
    requires SubTable(t.spaces, copy, orig)
    requires var p := Shared(LeafAt(s.spaces, orig, v));
      && MappedN(t, u, copy, v, p.pa, p.flags, 1) && p.pa in u.held && p.pa in u.ref
      && u.spaces[copy].leaves == t.spaces[copy].leaves[v := p]
      && ViewOf(u) == ViewOf(t)[copy := ViewOf(t)[copy][v := PageOf(t.frames, p)]] && x == Inc(u, p.pa)
    requires ViewOf(x) == ViewOf(u)
    ensures Quiet(x) && SubTable(x.spaces, copy, orig)
    ensures ViewOf(x) == ViewOf(s)[copy := ViewOf(s)[copy][v := ViewOf(s)[orig][v]]]
  {
    hide Inv, ViewOf, Quiet, SubTable, MappedN, PageOf;
    var p := Shared(LeafAt(s.spaces, orig, v));
    assert HasLeaf(t.spaces, orig, v) && LeafAt(t.spaces, orig, v) == p;
    ViewKeys(t, orig);
    ShareQuiet(t, u, x, copy, orig, v, p);
  }

  lemma ShareQuiet(t: State, u: State, x: State, copy: int, orig: int, v: int, p: Pte)
    requires Inv(t, {}) && Quiet(t) && SubTable(t.spaces, copy, orig) && copy in t.spaces && copy != orig
    requires HasLeaf(t.spaces, orig, v) && LeafAt(t.spaces, orig, v) == p
    requires MappedN(t, u, copy, v, p.pa, p.flags, 1) && p.pa in u.held && p.pa in u.ref && x == Inc(u, p.pa)
    requires u.spaces[copy].leaves == t.spaces[copy].leaves[v := p]
    ensures Quiet(x) && SubTable(x.spaces, copy, orig)
  {
    hide DirsOk, NodesOk, FreeOk, CountsOk, SharingOk;
    assert LeafOk(t, orig, v);
    forall q, w | HasLeaf(x.spaces, q, w) && (q, w) != (copy, v)
      ensures HasLeaf(t.spaces, q, w) && LeafAt(t.spaces, q, w) == LeafAt(x.spaces, q, w) && LeafOk(t, q, w)
    {
      assert HasLeaf(t.spaces, q, w);
    }
    forall q, w | HasLeaf(x.spaces, q, w)
      ensures LeafAt(x.spaces, q, w).pa in x.held && x.held[LeafAt(x.spaces, q, w).pa] == 0
    {
      InRunOne(LeafAt(x.spaces, q, w).pa, p.pa);
    }
    assert HasLeaf(x.spaces, orig, v);
  }

  lemma InRunOne(q: int, pa: int)
    ensures InRun(q, pa, 1) <==> q == pa
  {
  }

  function Restrict(m: Mem, n: nat): Mem { map v | v in m && 0 <= v < n :: m[v] }
  function PageTotal(sz: nat): nat { (sz + PGSIZE - 1) / PGSIZE }

  lemma RestrictStep(m: Mem, n: nat)
    requires n in m
    ensures Restrict(m, n)[n := m[n]] == Restrict(m, n + 1)
  {
  }

  lemma RestrictZero(w: View, copy: int, orig: int)
    requires copy in w && orig in w && w[copy] == map[]
    ensures w == w[copy := Restrict(w[orig], 0)]
  {
    assert Restrict(w[orig], 0) == map[];
  }

  lemma StepView(w: View, copy: int, orig: int, j: nat)
    requires copy in w && orig in w && copy != orig && j in w[orig]
    ensures var x := w[copy := Restrict(w[orig], j)];
      x[copy := x[copy][j := x[orig][j]]] == w[copy := Restrict(w[orig], j + 1)]
  {
    RestrictStep(w[orig], j);
  }

  lemma UndoView(w: View, copy: int, orig: int, j: nat)
    requires copy in w && orig in w && w[copy] == map[]
    ensures var x := w[copy := Restrict(w[orig], j)]; x[copy := x[copy] - Span(0, j)] == w
  {
    RestrictGone(w[orig], j);
  }

  lemma PageBound(i: nat, j: nat, sz: nat)
    requires i == j * PGSIZE < sz <= MAXVA
    ensures j < PageTotal(sz) <= MAXVPN && i / PGSIZE == j && i % PGSIZE == 0 && i < MAXVA
  {
  }

  lemma PageEnd(i: nat, j: nat, sz: nat)
    requires i == j * PGSIZE >= sz && j <= PageTotal(sz)
    ensures j == PageTotal(sz)
  {
  }

  lemma OrigPages(s: State, r: int, n: nat)
    requires r in s.spaces && forall v :: 0 <= v < n ==> HasLeaf(s.spaces, r, v)
    ensures r in ViewOf(s) && forall v :: 0 <= v < n ==> v in ViewOf(s)[r]
  {
    ViewKeys(s, r);
    forall v | 0 <= v < n ensures v in ViewOf(s)[r] { assert HasLeaf(s.spaces, r, v); }
  }

  lemma RestrictGone(m: Mem, n: nat)
    ensures Restrict(m, n) - Span(0, n) == map[]
  {
  }

  /** In a view that shows the first i pages of orig in copy, page i is mapped and not copied yet. */
  lemma CopyState(s: State, w: View, copy: int, orig: int, i: nat, n: nat)
    requires copy in w && orig in w && copy != orig && i < n && i in w[orig]
    requires ViewOf(s) == w[copy := Restrict(w[orig], i)]
    ensures HasLeaf(s.spaces, orig, i) && copy in s.spaces && !HasLeaf(s.spaces, copy, i)
    ensures forall v :: 0 <= v < i && v in w[orig] ==> HasLeaf(s.spaces, copy, v)
  {
    assert orig in s.spaces by { assert orig in ViewOf(s); }
    assert copy in s.spaces by { assert copy in ViewOf(s); }
    ViewKeys(s, orig);
    ViewKeys(s, copy);
  }

  /** uvmcopy, copy-on-write: afterwards the copy shows exactly what the original shows, and no
      other table looks different. If memory runs out nothing looks different. */
  method Uvmcopy(k: Kernel, orig: int, copy: int, sz: nat) returns (ok: bool)
    requires Inv(k.S(), {}) && Quiet(k.S()) && orig in k.spaces && copy in k.spaces && orig != copy
    requires |k.spaces| <= 255 && k.spaces[copy].leaves == map[] && sz <= MAXVA
    requires forall v :: 0 <= v < PageTotal(sz) ==> HasLeaf(k.spaces, orig, v)
    modifies k
    ensures k.fails == old(k.fails) + (if ok then 0 else 1)
    ensures !ok ==> |old(k.freelist)| < 2 * PageTotal(sz)
    ensures Inv(k.S(), {}) && Quiet(k.S()) && k.spaces.Keys == old(k.spaces).Keys
    ensures var w := old(ViewOf(k.S()));
      ViewOf(k.S()) == if ok then w[copy := Restrict(w[orig], PageTotal(sz))] else w
    ensures Steady(old(k.S()), k.S())
    ensures ok ==> SharedUpto(old(k.spaces), k.spaces, orig, copy, PageTotal(sz))
  {
    hide Inv, ViewOf, Quiet, SubTable, Restrict, PageTotal, UnmappedN, Span, Steady, SharedUpto, EntriesElsewhere, EntryIs;
    ghost var w, n := ViewOf(k.S()), PageTotal(sz);
    ViewKeys(k.S(), orig);
    ViewKeys(k.S(), copy);
    RestrictZero(w, copy, orig);
    OrigPages(k.S(), orig, n);
    SubEmpty(k.spaces, copy, orig);
    SharedNone(k.S(), orig, copy);
    ghost var j := 0;
    var i := 0;
    while i < sz
      invariant i == j * PGSIZE && 0 <= j <= n && k.fails == old(k.fails) && |k.freelist| + 2 * j >= |old(k.freelist)|
      invariant Inv(k.S(), {}) && Quiet(k.S()) && k.spaces.Keys == old(k.spaces).Keys && SubTable(k.spaces, copy, orig)
      invariant ViewOf(k.S()) == w[copy := Restrict(w[orig], j)]
      invariant Steady(old(k.S()), k.S()) && SharedUpto(old(k.spaces), k.spaces, orig, copy, j)
      decreases n - j
    {
      ghost var s2 := k.S();
      KeysCard(old(k.spaces), k.spaces);
      PageBound(i, j, sz);
      CopyState(k.S(), w, copy, orig, j, n);
      var fine := SharePage(k, orig, copy, i);
      SteadyTrans(old(k.S()), s2, k.S());
      if !fine {
        CopyState(k.S(), w, copy, orig, j, n);
        ghost var s1 := k.S();
        k.Uvmunmap(copy, 0, i / PGSIZE);
        UnmapKeys(s1, k.S(), copy, 0, j);
        UnmappedSteady(s1, k.S(), copy, 0, j);
        SteadyTrans(old(k.S()), s1, k.S());
        UndoView(w, copy, orig, j);
        return false;
      }
      StepView(w, copy, orig, j);
      SharedMore(old(k.spaces), s2.spaces, k.spaces, orig, copy, j);
      i := i + PGSIZE;
      j := j + 1;
    }
    PageEnd(i, j, sz);
    return true;
  }

  /** The first n pages of both tables name the frames of orig, read-only and copy-on-write; every other
      entry is as it was. */
  ghost predicate SharedUpto(ss: Spaces, tt: Spaces, orig: int, copy: int, n: nat) {
    && (forall v :: 0 <= v < n && HasLeaf(ss, orig, v) ==> EntryIs(tt, orig, v, Shared(LeafAt(ss, orig, v))) && EntryIs(tt, copy, v, Shared(LeafAt(ss, orig, v))))
    && (forall q, v :: HasLeaf(ss, q, v) && !(0 <= v < n && (q == orig || q == copy)) ==> EntryIs(tt, q, v, LeafAt(ss, q, v)))
    && forall q, v :: HasLeaf(tt, q, v) && !(0 <= v < n && (q == orig || q == copy)) ==> HasLeaf(ss, q, v)
  }

  lemma SharedNone(s: State, orig: int, copy: int)
    ensures SharedUpto(s.spaces, s.spaces, orig, copy, 0) && Steady(s, s)
  {
  }

  lemma SharedMore(ss: Spaces, tt: Spaces, uu: Spaces, orig: int, copy: int, n: nat)
    requires SharedUpto(ss, tt, orig, copy, n) && EntriesElsewhere(tt, uu, orig, copy, n) && HasLeaf(tt, orig, n)
    requires EntryIs(uu, orig, n, Shared(LeafAt(tt, orig, n))) && EntryIs(uu, copy, n, Shared(LeafAt(tt, orig, n)))
    ensures SharedUpto(ss, uu, orig, copy, n + 1)
  {
    hide Shared;
    assert HasLeaf(ss, orig, n) && EntryIs(tt, orig, n, LeafAt(ss, orig, n));
  }

  lemma UnmapKeys(s: State, t: State, r: int, lo: int, n: nat)
    requires UnmappedN(s, t, r, lo, n)
    ensures t.spaces.Keys == s.spaces.Keys
  {
  }

  lemma SubEmpty(ss: Spaces, copy: int, orig: int)
    requires copy in ss && ss[copy].leaves == map[]
    ensures SubTable(ss, copy, orig)
  {
  }

  /** One round of the eager uvmcopy: kalloc, memmove, mappages. */
  method CopyPage(k: Kernel, orig: int, copy: int, va: nat) returns (ok: bool)
    requires Inv(k.S(), {}) && Quiet(k.S()) && va < MAXVA && va % PGSIZE == 0
    requires HasLeaf(k.spaces, orig, va / PGSIZE) && copy in k.spaces && copy != orig
    requires !HasLeaf(k.spaces, copy, va / PGSIZE)
    modifies k
    ensures k.fails == old(k.fails) + (if ok then 0 else 1)
    ensures |k.freelist| + 3 >= |old(k.freelist)| && (!ok ==> |old(k.freelist)| < 3)
    ensures Inv(k.S(), {}) && Quiet(k.S()) && k.spaces.Keys == old(k.spaces).Keys
    ensures var w := old(ViewOf(k.S()));
      ViewOf(k.S()) == if ok then w[copy := w[copy][va / PGSIZE := w[orig][va / PGSIZE]]] else w
    ensures Steady(old(k.S()), k.S()) && StaysPlain(old(k.spaces), k.spaces)
  {
    hide Inv, ViewOf, Grown, Quiet, Bit, PTE2PA, PTE_FLAGS, Encode, LowOf, LowSlot, PX, FlagBits, PA2PTE, Mappable, MappedN, PageOf, Alloc, Steady, StaysPlain, HoldsOne;
    ghost var s0, v := k.S(), va / PGSIZE;
    ghost var p := LeafAt(s0.spaces, orig, v);
    LeafSlot(s0, orig, v);
    var found, pg, idx := k.Walk(orig, va, false);
    var pte := k.frames[pg].entries[idx];
    var pa, flags := PTE2PA(pte), PTE_FLAGS(pte);
    var mem := k.Kalloc({});
    NothingNew(s0);
    if mem == 0 {
      AllocFirst(s0);
      return false;
    }
    AllocQuiet(s0, p, orig, v);
    k.frames := k.frames[mem := k.frames[pa]];
    ghost var s2 := k.S();
    CopiedPage(s0, s2, orig, copy, v, p);
    AllocHolds(s0, s2, s0.frames[p.pa]);
    OnePageCount(va);
    var fine, done := k.Mappages(copy, va, PGSIZE, mem, flags, p.flags);
    ghost var s3 := k.S();
    if !fine {
      NoneMapped(s2, s3, copy, v, mem, p.flags);
      StillFresh(s2, s3, copy, v, mem, p.flags);
      k.Kfree(mem, {});
      DropQuiet(s3, k.S(), mem);
      GaveBack(s0, s2, s3, k.S(), mem, copy, v, p.flags);
      return false;
    }
    OneMapped(s2, s3, copy, v, mem, p.flags);
    MappedQuiet(s2, s3, copy, v, Pte(mem, p.flags));
    TookOne(s0, s2, s3, mem, copy, v, p.flags, orig, v);
    ViewKeys(s0, orig);
    return true;
  }

  lemma NothingNew(s: State)
    ensures Steady(s, s) && StaysPlain(s.spaces, s.spaces)
  {
  }

  /** Between kalloc and the entry the kernel holds the new frame and no other. */
  ghost predicate HoldsOne(s: State, t: State, mem: int) {
    && t.frames.Keys == s.frames.Keys && mem in t.role && t.role[mem].Data? && mem in t.held && t.held[mem] == 1 && mem in t.ref
    && forall pa :: pa != mem && pa in t.role && t.role[pa].Data? ==> pa in s.role && s.role[pa].Data? && (pa in s.held ==> pa in t.held && t.held[pa] == s.held[pa])
  }

  lemma AllocHolds(s: State, t: State, x: Frame)
    requires |s.free| > 0 && s.free[0] in s.frames && t == Alloc(s).(frames := Alloc(s).frames[s.free[0] := x])
    ensures HoldsOne(s, t, s.free[0]) && t.spaces == s.spaces
  {
  }

  /** The frame went to the entry of page v, which is writable or has the flags of another entry. */
  lemma TookOne(s: State, t: State, u: State, mem: int, r: int, v: int, f: Flags, q: int, w: int)
    requires HoldsOne(s, t, mem) && MappedN(t, u, r, v, mem, f, 1) && t.spaces == s.spaces
    requires u.spaces[r].leaves == t.spaces[r].leaves[v := Pte(mem, f)]
    requires f.w || (HasLeaf(s.spaces, q, w) && LeafAt(s.spaces, q, w).flags == f)
    ensures Steady(s, u) && StaysPlain(s.spaces, u.spaces)
  {
    forall q ensures InRun(q, mem, 1) <==> q == mem { InRunOne(q, mem); }
    forall q', w' | HasLeaf(u.spaces, q', w') && (q', w') != (r, v)
      ensures HasLeaf(s.spaces, q', w') && LeafAt(u.spaces, q', w') == LeafAt(s.spaces, q', w')
    {
    }
  }

  /** The frame went back to the allocator. */
  lemma GaveBack(s: State, t: State, u: State, x: State, mem: int, r: int, v: int, f: Flags)
    requires HoldsOne(s, t, mem) && MappedN(t, u, r, v, mem, f, 0) && SameLeaves(t.spaces, u.spaces) && t.spaces == s.spaces
    requires mem in u.ref && mem in u.held && mem in u.frames && u.held[mem] == 1 && x == Drop(u, mem)
    ensures Steady(s, x) && StaysPlain(s.spaces, x.spaces)
  {
  }

  lemma AllocQuiet(s: State, p: Pte, r: int, v: int)
    requires Inv(s, {}) && Quiet(s) && HasLeaf(s.spaces, r, v) && p == LeafAt(s.spaces, r, v)
    requires |s.free| > 0
    ensures var t := Alloc(s);
      && Quiet(t) && t.spaces == s.spaces && p.pa in t.frames && t.frames[p.pa] == s.frames[p.pa] && s.free[0] != p.pa
      && s.frames[p.pa].Bytes? && |s.frames[p.pa].data| == PGSIZE
  {
    hide DirsOk, NodesOk, CountsOk, SharingOk;
    assert s.free[0] in s.free;
    forall q, w | HasLeaf(s.spaces, q, w) ensures LeafAt(s.spaces, q, w).pa != s.free[0] {
      assert LeafOk(s, q, w);
    }
    assert LeafOk(s, r, v);
  }

  /** The new frame holds the bytes of the old one and may be entered anywhere. */
  lemma CopiedPage(s: State, t: State, r: int, copy: int, v: nat, p: Pte)
    requires Inv(s, {}) && Quiet(s) && HasLeaf(s.spaces, r, v) && p == LeafAt(s.spaces, r, v) && |s.free| > 0
    requires copy in s.spaces && Inv(Alloc(s), {}) && ViewOf(Alloc(s)) == ViewOf(s) && Fresh(Alloc(s), s.free[0])
    requires p.pa in s.frames && t == Alloc(s).(frames := Alloc(s).frames[s.free[0] := s.frames[p.pa]])
    ensures Inv(t, {}) && Quiet(t) && ViewOf(t) == ViewOf(s) && Fresh(t, s.free[0])
    ensures DataFrame(t, s.free[0]) && PageOf(t.frames, Pte(s.free[0], p.flags)) == PageOf(s.frames, p)
    ensures Mappable(t.spaces, copy, Pte(s.free[0], p.flags)) && t.spaces == s.spaces
    ensures !HasLeaf(s.spaces, copy, v) ==> Runs(t, copy, v, s.free[0], p.flags, 1)
  {
    hide Inv, ViewOf, Quiet, Alloc;
    AllocQuiet(s, p, r, v);
    assert Alloc(s).spaces == s.spaces;
    WriteHeldKeeps(Alloc(s), s.free[0], s.frames[p.pa].data, {});
    assert s.frames[p.pa] == Bytes(s.frames[p.pa].data);
    WasLeaf(s, r, v);
    FreshMappable(t.spaces, copy, s.free[0], p.flags);
    HeldSame(Alloc(s), t);
    forall j | 0 <= j < 1 && !HasLeaf(s.spaces, copy, v)
      ensures !HasLeaf(t.spaces, copy, v + j) && DataFrame(t, s.free[0] + j * PGSIZE)
        && Mappable(t.spaces, copy, Pte(s.free[0] + j * PGSIZE, p.flags))
    {
      assert s.free[0] + j * PGSIZE == s.free[0];
    }
  }

  lemma WasLeaf(s: State, r: int, v: int)
    requires Inv(s, {}) && HasLeaf(s.spaces, r, v)
    ensures LeafAt(s.spaces, r, v).flags.w != LeafAt(s.spaces, r, v).flags.cow
  {
    assert LeafOk(s, r, v);
  }

  lemma HeldSame(s: State, t: State)
    requires Quiet(s) && t.spaces == s.spaces && t.held == s.held
    ensures Quiet(t)
  {
  }

  lemma FreshMappable(ss: Spaces, r: int, pa: int, f: Flags)
    requires Refs(ss, pa) == {} && f.w != f.cow
    ensures Mappable(ss, r, Pte(pa, f))
  {
    forall q, w | HasLeaf(ss, q, w) ensures LeafAt(ss, q, w).pa != pa { RefOf(ss, q, w); }
  }

  lemma StillFresh(s: State, t: State, r: int, v: int, pa: int, f: Flags)
    requires Inv(s, {}) && Inv(t, {}) && Fresh(s, pa) && MappedN(s, t, r, v, pa, f, 0)
    ensures pa in t.frames && pa in t.ref && pa in t.held && t.role[pa].Data? && t.held[pa] == 1
  {
    hide DirsOk, NodesOk, CountsOk, SharingOk, FreeOk, LeavesOk;
  }

  lemma DropQuiet(s: State, t: State, pa: int)
    requires Inv(s, {}) && Inv(t, {}) && Quiet(s) && pa in s.ref && pa in s.held && t == Drop(s, pa)
    requires s.held[pa] == 1
    ensures Quiet(t)
  {
    hide Inv;
    forall q, w | HasLeaf(t.spaces, q, w) ensures LeafAt(t.spaces, q, w).pa != pa {
      assert HasLeaf(s.spaces, q, w);
    }
  }

  lemma MappedQuiet(s: State, t: State, r: int, v: int, p: Pte)
    requires Inv(s, {}) && Inv(t, {}) && Quiet(s) && Fresh(s, p.pa) && MappedN(s, t, r, v, p.pa, p.flags, 1)
    requires t.spaces[r].leaves == s.spaces[r].leaves[v := p]
    ensures Quiet(t)
  {
    hide DirsOk, NodesOk, CountsOk, SharingOk, FreeOk;
    forall q, w | HasLeaf(t.spaces, q, w)
      ensures LeafAt(t.spaces, q, w).pa in t.held && t.held[LeafAt(t.spaces, q, w).pa] == 0
    {
      InRunOne(LeafAt(t.spaces, q, w).pa, p.pa);
      if (q, w) != (r, v) {
        assert HasLeaf(s.spaces, q, w) && LeafOk(s, q, w);
        RefOf(s.spaces, q, w);
      }
    }
  }

  /** The eager uvmcopy, with the same outcome as the copy-on-write one. */
  method EagerUvmcopy(k: Kernel, orig: int, copy: int, sz: nat) returns (ok: bool)
    requires Inv(k.S(), {}) && Quiet(k.S()) && orig in k.spaces && copy in k.spaces && orig != copy
    requires k.spaces[copy].leaves == map[] && sz <= MAXVA
    requires forall v :: 0 <= v < PageTotal(sz) ==> HasLeaf(k.spaces, orig, v)
    modifies k
    ensures k.fails == old(k.fails) + (if ok then 0 else 1)
    ensures !ok ==> |old(k.freelist)| < 3 * PageTotal(sz)
    ensures Inv(k.S(), {}) && Quiet(k.S()) && k.spaces.Keys == old(k.spaces).Keys
    ensures var w := old(ViewOf(k.S()));
      ViewOf(k.S()) == if ok then w[copy := Restrict(w[orig], PageTotal(sz))] else w
    ensures Steady(old(k.S()), k.S()) && StaysPlain(old(k.spaces), k.spaces)
  {
    hide Inv, ViewOf, Quiet, Restrict, PageTotal, UnmappedN, Span, Steady, StaysPlain;
    ghost var w, n := ViewOf(k.S()), PageTotal(sz);
    ViewKeys(k.S(), orig);
    ViewKeys(k.S(), copy);
    RestrictZero(w, copy, orig);
    OrigPages(k.S(), orig, n);
    NothingNew(k.S());
    ghost var j := 0;
    var i := 0;
    while i < sz
      invariant i == j * PGSIZE && 0 <= j <= n && k.fails == old(k.fails) && |k.freelist| + 3 * j >= |old(k.freelist)|
      invariant Inv(k.S(), {}) && Quiet(k.S()) && k.spaces.Keys == old(k.spaces).Keys
      invariant ViewOf(k.S()) == w[copy := Restrict(w[orig], j)]
      invariant Steady(old(k.S()), k.S()) && StaysPlain(old(k.spaces), k.spaces)
      decreases n - j
    {
      ghost var s2 := k.S();
      PageBound(i, j, sz);
      CopyState(k.S(), w, copy, orig, j, n);
      var fine := CopyPage(k, orig, copy, i);
      SteadyTrans(old(k.S()), s2, k.S());
      PlainTrans(old(k.S()), s2, k.S());
      if !fine {
        CopyState(k.S(), w, copy, orig, j, n);
        ghost var s1 := k.S();
        k.Uvmunmap(copy, 0, i / PGSIZE);
        UnmapKeys(s1, k.S(), copy, 0, j);
        UnmappedSteady(s1, k.S(), copy, 0, j);
        SteadyTrans(old(k.S()), s1, k.S());
        PlainTrans(old(k.S()), s1, k.S());
        UndoView(w, copy, orig, j);
        return false;
      }
      StepView(w, copy, orig, j);
      i := i + PGSIZE;
      j := j + 1;
    }
    PageEnd(i, j, sz);
    return true;
  }
}
