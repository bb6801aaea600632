/** Life of an address space (xv6-labs-cow/vm.c:191-292): creating, growing, shrinking and
    freeing it, down to giving every table page back exactly once. */
module AddressSpaces {
  import opened Sv39
  import opened KernelState
  import opened CowKernel
  import opened UserMemory
  import opened CowFork
  import opened CowAccess

  /** A part of one table: a whole subtree, or the subtrees of the first i children. */
  datatype Part = Whole(n: Node) | Kids(n: Node, i: nat)

  predicate InPart(p: Part, x: Node) {
    match p
    case Whole(n) => Under(n, x)
    case Kids(Root, i) => (x.Mid? || x.Low?) && x.a < i
    case Kids(Mid(a), i) => x.Low? && x.a == a && x.b < i
    case Kids(Low(_, _), _) => false
  }

  /** t is s after the table pages of part p of table r went back to the free list;
      page up is the only surviving frame that may hold something else. */
  ghost predicate Pruned(s: State, t: State, r: int, p: Part, up: int) {
    && Shape(s) && Shape(t) && t.frames.Keys == s.frames.Keys && r in s.spaces
    && PrunedTables(s.spaces, t.spaces, r, p) && PrunedFrames(s, t, r, p, up)
  }

  ghost predicate PrunedTables(ss: Spaces, tt: Spaces, r: int, p: Part)
    requires r in ss
  {
    && (forall q :: q in tt ==> q in ss)
    && (forall q :: q in ss && q != r ==> q in tt && tt[q] == ss[q])
    && (if p == Whole(Root) then r !in tt else
        && r in tt && tt[r].leaves == ss[r].leaves
        && (forall x :: HasDir(tt, r, x) <==> HasDir(ss, r, x) && !InPart(p, x))
        && (forall x :: HasDir(tt, r, x) ==> DirAt(tt, r, x) == DirAt(ss, r, x)))
  }

  ghost predicate PrunedFrames(s: State, t: State, r: int, p: Part, up: int)
    requires Shape(s) && Shape(t) && t.frames.Keys == s.frames.Keys
  {
    forall g :: g in s.frames ==>
      if s.role[g].Table? && s.role[g].root == r && InPart(p, s.role[g].node) then t.role[g].Free?
      else t.role[g] == s.role[g] && t.ref[g] == s.ref[g] && t.held[g] == s.held[g]
           && (g != up ==> t.frames[g] == s.frames[g])
  }

  lemma PrunedNone(s: State, r: int, n: Node, up: int)
    requires Shape(s) && r in s.spaces
    ensures Pruned(s, s, r, Kids(n, 0), up)
  {
  }

  lemma KidStep(n: Node, i: nat, x: Node)
    requires !n.Low?
    ensures InPart(Kids(n, i + 1), x) <==> InPart(Kids(n, i), x) || Under(n.Child(i), x)
    ensures !InPart(Kids(n, i + 1), n)
  {
  }

  lemma PrunedKid(s: State, t: State, u: State, r: int, n: Node, i: nat, up: int)
    requires !n.Low? && Pruned(s, t, r, Kids(n, i), up) && Pruned(t, u, r, Whole(n.Child(i)), 0)
    ensures Pruned(s, u, r, Kids(n, i + 1), up)
  {
    forall x ensures InPart(Kids(n, i + 1), x) <==> InPart(Kids(n, i), x) || Under(n.Child(i), x) { KidStep(n, i, x); }
  }

  lemma PrunedSkip(s: State, t: State, r: int, n: Node, i: nat, up: int)
    requires Inv(s, {}) && Inv(t, {}) && Pruned(s, t, r, Kids(n, i), up)
    requires n.Low? || !HasDir(t.spaces, r, n.Child(i))
    ensures Pruned(s, t, r, Kids(n, i + 1), up)
  {
    hide FreeOk, NodesOk, LeavesOk, SharingOk, CountsOk;
    if !n.Low? {
      forall x | Under(n.Child(i), x) ensures !HasDir(t.spaces, r, x) {
        match x
        case Low(a, b) => assert HasDir(t.spaces, r, Low(a, b)) ==> HasDir(t.spaces, r, Mid(a));
        case _ =>
      }
      forall x ensures InPart(Kids(n, i + 1), x) <==> InPart(Kids(n, i), x) || Under(n.Child(i), x) { KidStep(n, i, x); }
      forall g | g in s.frames && s.role[g].Table? && s.role[g].root == r && InPart(Kids(n, i + 1), s.role[g].node)
        ensures InPart(Kids(n, i), s.role[g].node)
      {
        assert HasDir(s.spaces, r, s.role[g].node);
      }
    }
  }

  lemma PrunedPoke(s: State, t: State, u: State, r: int, p: Part, up: int)
    requires Pruned(s, t, r, p, up) && up in t.frames && Shape(u)
    requires t.frames.Keys == u.frames.Keys && u == t.(frames := u.frames)
    requires forall g :: g in t.frames && g != up ==> u.frames[g] == t.frames[g]
    ensures Pruned(s, u, r, p, up)
  {
  }

  /** What freewalk reads at index i of node n when table r has no leaves. */
  lemma FreewalkEntry(s: State, r: int, n: Node, i: nat)
    requires Inv(s, {}) && HasDir(s.spaces, r, n) && i < NPTE && s.spaces[r].leaves == map[]
    ensures DirOk(s, r, n) && NodeOk(s, r, n)
    ensures var e, c := s.frames[DirAt(s.spaces, r, n)].entries[i], n.Child(i);
      && (n.Low? || !HasDir(s.spaces, r, c) ==> !Bit(e, PTE_V))
      && (!n.Low? && HasDir(s.spaces, r, c) ==>
            && Bit(e, PTE_V) && !Bit(e, PTE_R) && !Bit(e, PTE_W) && !Bit(e, PTE_X)
            && PTE2PA(e) == DirAt(s.spaces, r, c) && c.Level() < n.Level() && c.Parent() == n && c != Root)
  {
    hide FreeOk, LeavesOk, SharingOk, CountsOk;
    assert DirOk(s, r, n) && NodeOk(s, r, n);
    var c := n.Child(i);
    if !n.Low? && HasDir(s.spaces, r, c) {
      assert DirOk(s, r, c);
      DirFields(DirAt(s.spaces, r, c));
    }
  }

  /** After a child is gone, clearing its entry in the parent restores the invariant. */
  lemma KidCleared(s: State, t: State, r: int, n: Node, i: nat)
    requires Inv(s, {}) && HasDir(s.spaces, r, n) && !n.Low? && i < NPTE && HasDir(s.spaces, r, n.Child(i))
    requires Pruned(s, t, r, Whole(n.Child(i)), 0)
    requires Inv(t, {DirAt(s.spaces, r, n)})
    ensures var pg := DirAt(s.spaces, r, n);
      && HasDir(t.spaces, r, n) && DirAt(t.spaces, r, n) == pg && pg in t.frames && pg > 0 && t.frames[pg].Ptes?
      && |t.frames[pg].entries| == NPTE
      && (var u := t.(frames := Poke(t.frames, pg, i, 0)); Inv(u, {}) && ViewOf(u) == ViewOf(t))
  {
    hide FreeOk, LeavesOk, SharingOk, CountsOk, ViewOf;
    var pg := DirAt(s.spaces, r, n);
    assert DirOk(s, r, n) && NodeOk(s, r, n);
    assert !Under(n.Child(i), n) && Under(n.Child(i), n.Child(i));
    assert HasDir(t.spaces, r, n) && !HasDir(t.spaces, r, n.Child(i));
    forall j | 0 <= j < NPTE && j != i ensures t.frames[pg].entries[j] == Entry(t.spaces[r], n, j) {
      assert !Under(n.Child(i), n.Child(j));
      assert HasDir(t.spaces, r, n.Child(j)) <==> HasDir(s.spaces, r, n.Child(j));
      assert HasDir(t.spaces, r, n.Child(j)) ==> DirAt(t.spaces, r, n.Child(j)) == DirAt(s.spaces, r, n.Child(j));
    }
    ClearDirKeeps(t, t.(frames := Poke(t.frames, pg, i, 0)), r, n, i);
  }

  lemma PrunedAll(s: State, t: State, r: int, n: Node, up: int)
    requires Inv(s, {}) && Inv(t, {}) && HasDir(s.spaces, r, n) && Pruned(s, t, r, Kids(n, NPTE), up)
    ensures HasDir(t.spaces, r, n) && DirAt(t.spaces, r, n) == DirAt(s.spaces, r, n) && Childless(t.spaces, r, n)
  {
    hide FreeOk, NodesOk, LeavesOk, SharingOk, CountsOk;
    assert !InPart(Kids(n, NPTE), n);
    forall x | HasDir(t.spaces, r, x) && Under(n, x) ensures x == n { assert DirOk(t, r, x); }
  }

  /** u is t without node n of table r, whose page pg went to the free list. */
  ghost predicate NodeGone(t: State, u: State, r: int, n: Node, pg: int) {
    && r in t.spaces && u.spaces == CutDir(t.spaces, r, n) && u.frames.Keys == t.frames.Keys && pg in t.frames
    && u.role == t.role[pg := Free]
    && forall g :: g in t.frames && g != pg ==>
         && u.frames[g] == t.frames[g]
         && g in t.ref && g in u.ref && u.ref[g] == t.ref[g] && g in t.held && g in u.held && u.held[g] == t.held[g]
  }

  lemma CutDropGone(t: State, u: State, r: int, n: Node, pg: int)
    requires Inv(t, {}) && HasDir(t.spaces, r, n) && pg == DirAt(t.spaces, r, n)
    requires pg in CutNode(t, r, n).ref && pg in CutNode(t, r, n).held && u == Drop(CutNode(t, r, n), pg)
    ensures NodeGone(t, u, r, n, pg)
  {
    hide FreeOk, NodesOk, LeavesOk, SharingOk, CountsOk;
    assert DirOk(t, r, n);
  }

  /** The node itself follows its children to the free list. */
  lemma PrunedNode(s: State, t: State, u: State, r: int, n: Node, pg: int)
    requires Inv(s, {}) && HasDir(s.spaces, r, n) && HasDir(t.spaces, r, n) && pg == DirAt(s.spaces, r, n)
    requires Pruned(s, t, r, Kids(n, NPTE), pg) && Shape(u) && NodeGone(t, u, r, n, pg)
    ensures Pruned(s, u, r, Whole(n), 0)
  {
    hide FreeOk, NodesOk, LeavesOk, SharingOk, CountsOk, PrunedTables;
    assert DirOk(s, r, n);
    forall x | HasDir(s.spaces, r, x)
      ensures x.InRange() && (InPart(Whole(n), x) <==> x == n || InPart(Kids(n, NPTE), x))
    {
      assert DirOk(s, r, x);
    }
    PrunedNodeTables(s.spaces, t.spaces, u.spaces, r, n);
    forall g | g in s.frames && s.role[g].Table? && s.role[g].root == r
      ensures InPart(Whole(n), s.role[g].node) <==> g == pg || InPart(Kids(n, NPTE), s.role[g].node)
    {
      assert HasDir(s.spaces, r, s.role[g].node) && DirAt(s.spaces, r, s.role[g].node) == g;
    }
  }

  lemma PrunedNodeTables(ss: Spaces, tt: Spaces, uu: Spaces, r: int, n: Node)
    requires HasDir(ss, r, n) && HasDir(tt, r, n) && uu == CutDir(tt, r, n) && PrunedTables(ss, tt, r, Kids(n, NPTE))
    requires forall x :: HasDir(ss, r, x) ==> (InPart(Whole(n), x) <==> x == n || InPart(Kids(n, NPTE), x))
    ensures PrunedTables(ss, uu, r, Whole(n))
  {
    if n != Root {
      forall x ensures HasDir(uu, r, x) <==> HasDir(tt, r, x) && x != n {}
    }
  }

  /** freewalk: give back the table page pg of node n and everything below it. The entry for n in
      its parent is cleared by the caller. */
  method Freewalk(k: Kernel, pg: int, ghost r: int, ghost n: Node)
    requires Inv(k.S(), {}) && HasDir(k.spaces, r, n) && pg == DirAt(k.spaces, r, n) && k.spaces[r].leaves == map[]
    modifies k
    ensures k.fails == old(k.fails)
    ensures Pruned(old(k.S()), k.S(), r, Whole(n), 0)
    ensures Inv(k.S(), old(ParentPage(k.S(), r, n)))
    ensures ViewOf(k.S()) == if n == Root then old(ViewOf(k.S())) - {r} else old(ViewOf(k.S()))
    decreases n.Level()
  {
    hide Inv, ViewOf, Pruned, Bit, PTE2PA, Childless, NodeOk, DirsOk, Shape, NodeGone;
    ghost var s0 := k.S();
    InvShape(s0);
    PrunedNone(s0, r, n, pg);
    var i := 0;
    while i < 512
      invariant 0 <= i <= 512 && Inv(k.S(), {}) && Pruned(s0, k.S(), r, Kids(n, i), pg)
      invariant HasDir(k.spaces, r, n) && pg == DirAt(k.spaces, r, n) && k.spaces[r].leaves == map[]
      invariant ViewOf(k.S()) == ViewOf(s0) && k.fails == old(k.fails)
      decreases 512 - i
    {
      ghost var s1, c := k.S(), n.Child(i);
      FreewalkEntry(s1, r, n, i);
      EntryThere(s1, r, n);
      var pte := k.frames[pg].entries[i];
      if Bit(pte, PTE_V) && !(Bit(pte, PTE_R) || Bit(pte, PTE_W) || Bit(pte, PTE_X)) {
        var child := PTE2PA(pte);
        Freewalk(k, child, r, c);
        ghost var s2 := k.S();
        KidParent(s1, r, n, i);
        KidCleared(s1, s2, r, n, i);
        PrunedKid(s0, s1, s2, r, n, i, pg);
        k.frames := k.frames[pg := Ptes(k.frames[pg].entries[i := 0])];
        InvShape(k.S());
        PrunedPoke(s0, s2, k.S(), r, Kids(n, i + 1), pg);
        PrunedLeaves(s1, s2, r, c);
      } else {
        assert !Bit(pte, PTE_V);
        PrunedSkip(s0, s1, r, n, i, pg);
      }
      i := i + 1;
    }
    FreeNode(k, pg, r, n, s0);
  }

  /** The end of freewalk: kfree of the emptied table page. */
  method FreeNode(k: Kernel, pg: int, ghost r: int, ghost n: Node, ghost s0: State)
    requires Inv(s0, {}) && HasDir(s0.spaces, r, n) && pg == DirAt(s0.spaces, r, n) && s0.spaces[r].leaves == map[]
    requires Inv(k.S(), {}) && Pruned(s0, k.S(), r, Kids(n, 512), pg)
    requires HasDir(k.spaces, r, n) && pg == DirAt(k.spaces, r, n) && k.spaces[r].leaves == map[] && ViewOf(k.S()) == ViewOf(s0)
    modifies k
    ensures k.fails == old(k.fails)
    ensures Pruned(s0, k.S(), r, Whole(n), 0) && Inv(k.S(), ParentPage(s0, r, n))
    ensures ViewOf(k.S()) == if n == Root then ViewOf(s0) - {r} else ViewOf(s0)
  {
    hide Inv, ViewOf, Pruned, Childless, NodeOk, DirsOk, Shape, NodeGone;
    InvShape(s0);
    ghost var s3 := k.S();
    PrunedAll(s0, s3, r, n, pg);
    InvShape(s3);
    CutNodeKeeps(s3, r, n);
    k.spaces := CutDir(k.spaces, r, n);
    k.role := k.role[pg := Data];
    k.held := k.held[pg := 1];
    k.Kfree(pg, ParentPage(s3, r, n));
    InvShapeEx(k.S(), ParentPage(s3, r, n));
    CutKeys(s3, r, n);
    CutDropGone(s3, k.S(), r, n, pg);
    PrunedNode(s0, s3, k.S(), r, n, pg);
    SameParent(s0, s3, r, n, pg);
  }

  lemma InvShape(s: State)
    requires Inv(s, {})
    ensures Shape(s) && DirsOk(s)
  {
  }

  lemma InvShapeEx(s: State, ex: set<int>)
    requires Inv(s, ex)
    ensures Shape(s)
  {
  }

  lemma EntryThere(s: State, r: int, n: Node)
    requires Inv(s, {}) && HasDir(s.spaces, r, n)
    ensures var pg := DirAt(s.spaces, r, n);
      pg in s.frames && s.frames[pg].Ptes? && |s.frames[pg].entries| == NPTE
  {
    assert DirOk(s, r, n) && NodeOk(s, r, n);
  }

  lemma KidParent(s: State, r: int, n: Node, i: nat)
    requires Inv(s, {}) && HasDir(s.spaces, r, n) && !n.Low? && HasDir(s.spaces, r, n.Child(i))
    ensures ParentPage(s, r, n.Child(i)) == {DirAt(s.spaces, r, n)}
  {
  }

  lemma PrunedLeaves(s: State, t: State, r: int, c: Node)
    requires Pruned(s, t, r, Whole(c), 0) && c != Root
    ensures r in t.spaces && t.spaces[r].leaves == s.spaces[r].leaves
  {
  }

  lemma CutKeys(s: State, r: int, n: Node)
    requires Inv(s, {}) && HasDir(s.spaces, r, n)
    ensures var t, pg := CutNode(s, r, n), DirAt(s.spaces, r, n); pg in t.ref && pg in t.held && pg in t.frames
  {
    assert DirOk(s, r, n);
  }

  lemma SameParent(s: State, t: State, r: int, n: Node, pg: int)
    requires Inv(s, {}) && Inv(t, {}) && HasDir(s.spaces, r, n) && HasDir(t.spaces, r, n)
    requires Pruned(s, t, r, Kids(n, NPTE), pg)
    ensures ParentPage(s, r, n) == ParentPage(t, r, n)
  {
    hide FreeOk, NodesOk, LeavesOk, SharingOk, CountsOk;
    if n != Root {
      assert n.Low? ==> HasDir(s.spaces, r, Low(n.a, n.b));
      assert HasDir(s.spaces, r, n.Parent());
      assert !InPart(Kids(n, NPTE), n.Parent());
    }
  }

  // ---------------------------------------------------------------- operations on whole spaces

  const UserPerm: Flags := Flags(true, true, true, true, false)
  function ZeroPage(): Page { Page(Fill(0), true, true, true) }

  /** m with zeroed pages lo .. hi-1 added. */
  ghost function WithZeros(m: Mem, lo: nat, hi: nat): Mem {
    map v | v in m.Keys + Span(lo, if lo <= hi then hi - lo else 0) :: if lo <= v < hi then ZeroPage() else m[v]
  }

  /** uvmcreate: an empty table, or 0. */
  method Uvmcreate(k: Kernel) returns (root: int)
    requires Inv(k.S(), {}) && Quiet(k.S())
    modifies k
    ensures k.fails == old(k.fails) + (if root == 0 then 1 else 0)
    ensures |k.freelist| + 1 >= |old(k.freelist)|
    ensures Inv(k.S(), {}) && Quiet(k.S())
    ensures root == 0 <==> old(k.freelist) == []
    ensures root == 0 ==> k.S() == old(k.S())
    ensures root != 0 ==>
      && root !in old(k.spaces) && k.spaces == old(k.spaces)[root := Space(map[Root := root], map[])]
      && ViewOf(k.S()) == old(ViewOf(k.S()))[root := map[]]
    ensures Steady(old(k.S()), k.S()) && StaysPlain(old(k.spaces), k.spaces)
  {
    hide Inv, ViewOf, Quiet, Fresh;
    ghost var s0 := k.S();
    AllocFirst(s0);
    root := k.Kalloc({});
    if root == 0 {
      return;
    }
    ghost var s1 := k.S();
    AddRootKeeps(s1, root);
    k.frames := k.frames[root := Ptes(Zeros())];
    k.spaces := k.spaces[root := Space(map[Root := root], map[])];
    k.role := k.role[root := Table(root, Root)];
    k.held := k.held[root := 0];
    assert k.S() == AddRoot(s1, root);
    RootQuiet(s0, s1, k.S(), root);
    forall q, v | HasLeaf(k.spaces, q, v) ensures HasLeaf(s0.spaces, q, v) && LeafAt(k.spaces, q, v) == LeafAt(s0.spaces, q, v) { }
  }

  lemma RootQuiet(s: State, t: State, u: State, pa: int)
    requires Inv(s, {}) && Quiet(s) && |s.free| > 0 && pa == s.free[0] && t == Alloc(s) && u == AddRoot(t, pa)
    requires pa !in s.spaces
    ensures Quiet(u)
  {
    hide DirsOk, NodesOk, CountsOk, SharingOk;
    assert pa in s.free;
    forall q, w | HasLeaf(u.spaces, q, w)
      ensures LeafAt(u.spaces, q, w).pa in u.held && u.held[LeafAt(u.spaces, q, w).pa] == 0
    {
      assert HasLeaf(s.spaces, q, w) && LeafOk(s, q, w);
    }
  }

  /** One round of uvmalloc: a zeroed page at va, or nothing looks different. */
  method ZeroMapped(k: Kernel, root: int, va: nat) returns (ok: bool, mem: int)
    requires Inv(k.S(), {}) && Quiet(k.S()) && va < MAXVA && va % PGSIZE == 0 && root in k.spaces
    requires !HasLeaf(k.spaces, root, va / PGSIZE)
    modifies k
    ensures k.fails == old(k.fails) + (if ok then 0 else 1)
    ensures |k.freelist| + 3 >= |old(k.freelist)| && (!ok ==> |old(k.freelist)| < 3)
    ensures Inv(k.S(), {}) && Quiet(k.S()) && k.spaces.Keys == old(k.spaces).Keys
    ensures var w := old(ViewOf(k.S()));
      ViewOf(k.S()) == if ok then w[root := w[root][va / PGSIZE := ZeroPage()]] else w
    ensures ok ==> HasLeaf(k.spaces, root, va / PGSIZE) && LeafAt(k.spaces, root, va / PGSIZE) == Pte(mem, UserPerm)
    ensures Steady(old(k.S()), k.S()) && StaysPlain(old(k.spaces), k.spaces)
  {
    hide Steady, StaysPlain, HoldsOne;
    hide Inv, ViewOf, Quiet, Mappable, MappedN, PageOf, Alloc, Fresh, DataFrame, Runs, PermBits;
    ghost var s0, v := k.S(), va / PGSIZE;
    AllocFirst(s0);
    NothingNew(s0);
    mem := k.Kalloc({});
    if mem == 0 {
      return false, 0;
    }
    k.frames := k.frames[mem := Bytes(Fill(0))];
    ghost var s2 := k.S();
    FilledPage(s0, s2, root, v, mem);
    AllocHolds(s0, s2, Bytes(Fill(0)));
    OnePageCount(va);
    PermUser();
    var fine, done := k.Mappages(root, va, PGSIZE, mem, PTE_W + PTE_X + PTE_R + PTE_U, UserPerm);
    ghost var s3 := k.S();
    if !fine {
      NoneMapped(s2, s3, root, v, mem, UserPerm);
      StillFresh(s2, s3, root, v, mem, UserPerm);
      k.Kfree(mem, {});
      DropQuiet(s3, k.S(), mem);
      GaveBack(s0, s2, s3, k.S(), mem, root, v, UserPerm);
      return false, 0;
    }
    OneMapped(s2, s3, root, v, mem, UserPerm);
    MappedQuiet(s2, s3, root, v, Pte(mem, UserPerm));
    TookOne(s0, s2, s3, mem, root, v, UserPerm, root, v);
    return true, mem;
  }

  /** uvminit: one zeroed page at 0 that starts with the given bytes; false where the source, at boot,
      uses the result of kalloc without looking at it. */
  method Uvminit(k: Kernel, root: int, code: seq<byte>) returns (ok: bool)
    requires Inv(k.S(), {}) && Quiet(k.S()) && root in k.spaces && |code| < PGSIZE && !HasLeaf(k.spaces, root, 0)
    modifies k
    ensures k.fails == old(k.fails) + (if ok then 0 else 1)
    ensures !ok ==> |old(k.freelist)| < 3
    ensures Inv(k.S(), {}) && Quiet(k.S()) && k.spaces.Keys == old(k.spaces).Keys
    ensures var w := old(ViewOf(k.S()));
      ViewOf(k.S()) == if ok then w[root := StoreBytes(w[root][0 := ZeroPage()], 0, code)] else w
    ensures Steady(old(k.S()), k.S()) && StaysPlain(old(k.spaces), k.spaces)
  {
    hide Inv, ViewOf, Quiet, StoreBytes, ZeroPage, Steady, StaysPlain;
    ViewKeys(k.S(), root);
    var mem;
    ok, mem := ZeroMapped(k, root, 0);
    if ok {
      ghost var s1 := k.S();
      WriteFrame(k, root, 0, mem, code);
      SteadyTrans(old(k.S()), s1, k.S());
    }
  }

  lemma PermUser()
    ensures PermBits(PTE_W + PTE_X + PTE_R + PTE_U, UserPerm)
  {
  }

  lemma FilledPage(s: State, t: State, r: int, v: nat, pa: int)
    requires Inv(s, {}) && Quiet(s) && |s.free| > 0 && pa == s.free[0] && pa in s.frames && !HasLeaf(s.spaces, r, v)
    requires Inv(Alloc(s), {}) && ViewOf(Alloc(s)) == ViewOf(s) && Fresh(Alloc(s), pa)
    requires t == Alloc(s).(frames := Alloc(s).frames[pa := Bytes(Fill(0))])
    ensures Inv(t, {}) && Quiet(t) && ViewOf(t) == ViewOf(s) && Fresh(t, pa) && t.spaces == s.spaces
    ensures PageOf(t.frames, Pte(pa, UserPerm)) == ZeroPage()
    ensures Runs(t, r, v, pa, UserPerm, 1)
  {
    hide Inv, ViewOf, Quiet;
    WriteHeldKeeps(Alloc(s), pa, Fill(0), {});
    AllocKeepsQuiet(s);
    HeldSame(Alloc(s), t);
    FreshMappable(t.spaces, r, pa, UserPerm);
    forall j | 0 <= j < 1
      ensures !HasLeaf(t.spaces, r, v + j) && DataFrame(t, pa + j * PGSIZE)
        && Mappable(t.spaces, r, Pte(pa + j * PGSIZE, UserPerm))
    {
      assert pa + j * PGSIZE == pa;
    }
  }

  lemma AllocKeepsQuiet(s: State)
    requires Inv(s, {}) && Quiet(s) && |s.free| > 0
    ensures Quiet(Alloc(s))
  {
    hide DirsOk, NodesOk, CountsOk, SharingOk;
    assert s.free[0] in s.free;
    forall q, w | HasLeaf(s.spaces, q, w) ensures LeafAt(s.spaces, q, w).pa != s.free[0] {
      assert LeafOk(s, q, w);
    }
  }

  /** uvmdealloc: the pages between the two sizes disappear; the other pages stay. */
  method Uvmdealloc(k: Kernel, root: int, oldsz: nat, newsz: nat) returns (size: nat)
    requires Inv(k.S(), {}) && Quiet(k.S()) && root in k.spaces && oldsz <= MAXVA
    requires forall v :: PageTotal(newsz) <= v < PageTotal(oldsz) ==> HasLeaf(k.spaces, root, v)
    modifies k
    ensures k.fails == old(k.fails)
    ensures Inv(k.S(), {}) && Quiet(k.S()) && k.spaces.Keys == old(k.spaces).Keys
    ensures size == if newsz >= oldsz then oldsz else newsz
    ensures var w := old(ViewOf(k.S()));
      newsz < oldsz ==> ViewOf(k.S()) == w[root := w[root] - Span(PageTotal(newsz), PageTotal(oldsz) - PageTotal(newsz))]
    ensures newsz >= oldsz ==> k.S() == old(k.S())
    ensures Steady(old(k.S()), k.S()) && StaysPlain(old(k.spaces), k.spaces)
  {
    hide Inv, ViewOf, Quiet, UnmappedN, Steady, StaysPlain;
    NothingNew(k.S());
    if newsz >= oldsz {
      return oldsz;
    }
    ghost var s0 := k.S();
    RoundUp(oldsz);
    RoundUp(newsz);
    if PGROUNDUP(newsz) < PGROUNDUP(oldsz) {
      var npages := (PGROUNDUP(oldsz) - PGROUNDUP(newsz)) / PGSIZE;
      k.Uvmunmap(root, PGROUNDUP(newsz), npages);
      UnmapKeys(s0, k.S(), root, PageTotal(newsz), npages);
      UnmappedSteady(s0, k.S(), root, PageTotal(newsz), npages);
    } else {
      EmptySpan(s0, root, PageTotal(newsz));
    }
    return newsz;
  }

  lemma RoundUp(sz: nat)
    ensures PGROUNDUP(sz) == PageTotal(sz) * PGSIZE && PGROUNDUP(sz) % PGSIZE == 0 && PGROUNDUP(sz) / PGSIZE == PageTotal(sz)
    ensures sz <= MAXVA ==> PageTotal(sz) <= MAXVPN
    ensures sz <= PGROUNDUP(sz) < sz + PGSIZE
  {
  }

  lemma EmptySpan(s: State, r: int, v: int)
    requires r in s.spaces
    ensures ViewOf(s) == ViewOf(s)[r := ViewOf(s)[r] - Span(v, 0)]
  {
    assert Span(v, 0) == {};
    assert ViewOf(s)[r] - {} == ViewOf(s)[r];
  }

  /** uvmalloc: the new pages are zeroed, the old ones stay; on failure nothing looks different. */
  method Uvmalloc(k: Kernel, root: int, oldsz: nat, newsz: nat) returns (size: nat, ghost ok: bool)
    requires Inv(k.S(), {}) && Quiet(k.S()) && root in k.spaces && newsz <= MAXVA
    requires forall v :: PageTotal(oldsz) <= v < PageTotal(newsz) ==> !HasLeaf(k.spaces, root, v)
    modifies k
    ensures k.fails == old(k.fails) + (if ok then 0 else 1)
    ensures !ok ==> |old(k.freelist)| < 3 * (PageTotal(newsz) - PageTotal(oldsz))
    ensures Inv(k.S(), {}) && Quiet(k.S()) && k.spaces.Keys == old(k.spaces).Keys
    ensures size == if newsz < oldsz then oldsz else if ok then newsz else 0
    ensures newsz < oldsz || !ok ==> ViewOf(k.S()) == old(ViewOf(k.S()))
    ensures var w := old(ViewOf(k.S()));
      newsz >= oldsz && ok ==> ViewOf(k.S()) == w[root := WithZeros(w[root], PageTotal(oldsz), PageTotal(newsz))]
    ensures Steady(old(k.S()), k.S()) && StaysPlain(old(k.spaces), k.spaces)
  {
    hide Inv, ViewOf, Quiet, UnmappedN, WithZeros, PageTotal, PGROUNDUP, Steady, StaysPlain;
    ghost var s0 := k.S();
    NothingNew(s0);
    if newsz < oldsz {
      return oldsz, true;
    }
    ghost var w, lo := ViewOf(k.S()), PageTotal(oldsz);
    ViewKeys(k.S(), root);
    RoundUp(oldsz);
    RoundUp(newsz);
    WithNone(w, root, lo);
    var start := PGROUNDUP(oldsz);
    var a := start;
    ghost var j := lo;
    while a < newsz
      invariant a == j * PGSIZE && lo <= j && (j == lo || j <= PageTotal(newsz)) && k.fails == old(k.fails)
      invariant |k.freelist| + 3 * (j - lo) >= |old(k.freelist)|
      invariant Inv(k.S(), {}) && Quiet(k.S()) && k.spaces.Keys == old(k.spaces).Keys
      invariant ViewOf(k.S()) == w[root := WithZeros(w[root], lo, j)]
      invariant Steady(s0, k.S()) && StaysPlain(s0.spaces, k.spaces)
      decreases newsz - a
    {
      ghost var s1 := k.S();
      PageBound(a, j, newsz);
      GrowState(old(k.S()), k.S(), root, lo, j);
      var fine, mem := ZeroMapped(k, root, a);
      ghost var s2 := k.S();
      SteadyTrans(s0, s1, s2);
      PlainTrans(s0, s1, s2);
      if !fine {
        GrowState(old(k.S()), k.S(), root, lo, j);
        NotThere(old(k.S()), root, lo, j, PageTotal(newsz));
        DeallocBack(w, root, lo, j, a);
        size := Uvmdealloc(k, root, a, start);
        SteadyTrans(s0, s2, k.S());
        PlainTrans(s0, s2, k.S());
        if a == start {
          assert j == lo;
        }
        return 0, false;
      }
      WithMore(w, root, lo, j);
      a := a + PGSIZE;
      j := j + 1;
    }
    GrowEnd(w, root, lo, j, a, oldsz, newsz);
    return newsz, true;
  }

  lemma NotThere(s: State, r: int, lo: nat, j: nat, hi: nat)
    requires r in s.spaces && j <= hi && forall v :: lo <= v < hi ==> !HasLeaf(s.spaces, r, v)
    ensures r in ViewOf(s) && forall v :: lo <= v < j ==> v !in ViewOf(s)[r]
  {
    ViewKeys(s, r);
    forall v | lo <= v < j ensures v !in ViewOf(s)[r] { assert !HasLeaf(s.spaces, r, v); }
  }

  lemma WithNone(w: View, r: int, lo: nat)
    requires r in w
    ensures w == w[r := WithZeros(w[r], lo, lo)]
  {
    assert WithZeros(w[r], lo, lo) == w[r];
  }

  lemma WithMore(w: View, r: int, lo: nat, j: nat)
    requires r in w && lo <= j
    ensures var x := w[r := WithZeros(w[r], lo, j)];
      x[r := x[r][j := ZeroPage()]] == w[r := WithZeros(w[r], lo, j + 1)]
  {
    assert WithZeros(w[r], lo, j)[j := ZeroPage()] == WithZeros(w[r], lo, j + 1);
  }

  lemma GrowState(s: State, t: State, r: int, lo: nat, j: nat)
    requires r in s.spaces && lo <= j
    requires ViewOf(t) == ViewOf(s)[r := WithZeros(ViewOf(s)[r], lo, j)]
    ensures r in t.spaces && (HasLeaf(t.spaces, r, j) <==> HasLeaf(s.spaces, r, j))
    ensures forall v :: lo <= v < j ==> HasLeaf(t.spaces, r, v)
  {
    ViewKeys(s, r);
    assert r in ViewOf(t);
    ViewKeys(t, r);
    forall v | lo <= v < j ensures HasLeaf(t.spaces, r, v) { assert v in WithZeros(ViewOf(s)[r], lo, j); }
    assert j in ViewOf(t)[r] <==> j in ViewOf(s)[r];
  }

  /** Undoing a partial growth removes exactly the pages it added. */
  lemma DeallocBack(w: View, r: int, lo: nat, j: nat, a: nat)
    requires r in w && lo <= j && a == j * PGSIZE && forall v :: lo <= v < j ==> v !in w[r]
    ensures PageTotal(a) == j && PageTotal(lo * PGSIZE) == lo
    ensures var x := w[r := WithZeros(w[r], lo, j)]; x[r := x[r] - Span(lo, j - lo)] == w
  {
    assert WithZeros(w[r], lo, j) - Span(lo, j - lo) == w[r];
  }

  lemma GrowEnd(w: View, r: int, lo: nat, j: nat, a: nat, oldsz: nat, newsz: nat)
    requires r in w && lo == PageTotal(oldsz) && a == j * PGSIZE >= newsz >= oldsz && lo <= j
    requires j == lo || j <= PageTotal(newsz)
    ensures j == PageTotal(newsz)
  {
  }

  /** uvmfree: the table is gone and no other table looks different. */
  method Uvmfree(k: Kernel, root: int, sz: nat)
    requires Inv(k.S(), {}) && Quiet(k.S()) && root in k.spaces && sz <= MAXVA
    requires forall v :: HasLeaf(k.spaces, root, v) <==> 0 <= v < PageTotal(sz)
    modifies k
    ensures k.fails == old(k.fails)
    ensures Inv(k.S(), {}) && Quiet(k.S()) && k.spaces.Keys == old(k.spaces).Keys - {root}
    ensures ViewOf(k.S()) == old(ViewOf(k.S())) - {root}
    ensures forall g :: g in old(k.role) && old(k.role[g]).Table? && old(k.role[g]).root == root ==> g in k.freelist
    ensures Steady(old(k.S()), k.S()) && StaysPlain(old(k.spaces), k.spaces)
  {
    hide Inv, ViewOf, Quiet, UnmappedN, Pruned, Span, Steady, StaysPlain;
    ghost var s0 := k.S();
    NothingNew(s0);
    RoundUp(sz);
    if sz > 0 {
      k.Uvmunmap(root, 0, PGROUNDUP(sz) / PGSIZE);
      UnmappedSteady(s0, k.S(), root, 0, PageTotal(sz));
      EmptyAfter(s0, k.S(), root, PageTotal(sz));
    } else {
      assert k.spaces[root].leaves == map[] by { NoLeaves(k.spaces, root); }
      SameTables(s0, root);
    }
    ghost var s1 := k.S();
    RootDir(s1, root);
    Freewalk(k, root, root, Root);
    FreedTable(s0, s1, k.S(), root);
    PrunedSteady(s1, k.S(), root);
    SteadyTrans(s0, s1, k.S());
    PlainTrans(s0, s1, k.S());
    ViewMinus(ViewOf(s0), root, PageTotal(sz));
  }

  lemma PrunedSteady(s: State, t: State, r: int)
    requires Pruned(s, t, r, Whole(Root), 0)
    ensures Steady(s, t) && StaysPlain(s.spaces, t.spaces)
  {
    forall q, v | HasLeaf(t.spaces, q, v) ensures HasLeaf(s.spaces, q, v) && LeafAt(t.spaces, q, v) == LeafAt(s.spaces, q, v) { }
  }

  lemma NoLeaves(ss: Spaces, r: int)
    requires r in ss && forall v :: !HasLeaf(ss, r, v)
    ensures ss[r].leaves == map[]
  {
    forall v ensures v !in ss[r].leaves { assert !HasLeaf(ss, r, v); }
  }

  /** The table pages of r are the same before and after the leaves went. */
  ghost predicate SameTablePages(s: State, t: State, r: int) {
    && t.spaces.Keys == s.spaces.Keys && r in s.spaces && t.spaces[r].dirs == s.spaces[r].dirs
    && t.spaces[r].leaves == map[]
  }

  lemma SameTables(s: State, r: int)
    requires r in s.spaces && s.spaces[r].leaves == map[]
    ensures SameTablePages(s, s, r)
  {
  }

  lemma EmptyAfter(s: State, t: State, r: int, n: nat)
    requires UnmappedN(s, t, r, 0, n) && forall v :: HasLeaf(s.spaces, r, v) <==> 0 <= v < n
    ensures SameTablePages(s, t, r)
  {
    forall v ensures v !in t.spaces[r].leaves {
      assert HasLeaf(s.spaces, r, v) <==> 0 <= v < n;
    }
  }

  lemma FreedTable(s: State, t: State, u: State, r: int)
    requires Inv(s, {}) && Inv(t, {}) && Inv(u, {}) && SameTablePages(s, t, r) && Quiet(t)
    requires Pruned(t, u, r, Whole(Root), 0)
    ensures Quiet(u) && u.spaces.Keys == s.spaces.Keys - {r}
    ensures forall g :: g in s.role && s.role[g].Table? && s.role[g].root == r ==> g in u.free
  {
    hide NodesOk, CountsOk, SharingOk;
    forall q, w | HasLeaf(u.spaces, q, w)
      ensures LeafAt(u.spaces, q, w).pa in u.held && u.held[LeafAt(u.spaces, q, w).pa] == 0
    {
      assert HasLeaf(t.spaces, q, w) && LeafOk(t, q, w);
    }
    forall q ensures q in u.spaces.Keys <==> q in s.spaces.Keys - {r} {
      assert q in t.spaces <==> q in s.spaces;
    }
    TablesGone(s, t, u, r);
  }

  lemma TablesGone(s: State, t: State, u: State, r: int)
    requires Inv(s, {}) && Inv(t, {}) && Inv(u, {}) && SameTablePages(s, t, r)
    requires Pruned(t, u, r, Whole(Root), 0)
    ensures forall g :: g in s.role && s.role[g].Table? && s.role[g].root == r ==> g in u.free
  {
    hide NodesOk, CountsOk, SharingOk, LeavesOk;
    forall g | g in s.role && s.role[g].Table? && s.role[g].root == r ensures g in u.free {
      var n := s.role[g].node;
      assert HasDir(s.spaces, r, n) && DirAt(s.spaces, r, n) == g;
      assert HasDir(t.spaces, r, n) && DirOk(t, r, n);
    }
  }

  lemma ViewMinus(w: View, r: int, n: nat)
    ensures r in w ==> w[r := w[r] - Span(0, n)] - {r} == w - {r}
  {
    if r in w {
      var x := w[r := w[r] - Span(0, n)];
      forall q | q in x - {r} ensures x[q] == w[q] {}
      assert x - {r} == w - {r};
    }
  }
}
