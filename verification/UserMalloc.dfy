/** free, morecore and malloc (xv6-lab-pagetables/user/umalloc.c:24-90). */
module UserMalloc {
  import opened Common
  import opened UserHeap

  ghost predicate InLent(lent: map<nat, nat>, u: int) { exists a :: a in lent && Within(Block(a, lent[a]), u) }

  /** Every unit got from sbrk is in exactly one block, free or handed out, and no other unit is. */
  ghost predicate Shared(base: nat, brk: nat, ring: seq<Block>, lent: map<nat, nat>, got: set<int>) {
    && 0 < base < brk && Ordered(ring) && ring[0] == Block(base, 0)
    && (forall a :: a in lent ==> base < a && lent[a] > 0)
    && (forall a, b :: a in lent && b in lent && a < b ==> a + lent[a] <= b)
    && (forall u :: !(InRing(ring, u) && InLent(lent, u)))
    && (forall u :: u in got <==> InRing(ring, u) || InLent(lent, u))
    && forall u :: u in got ==> base < u < brk
  }

  ghost predicate Headed(size: map<nat, nat>, lent: map<nat, nat>) { forall a :: a in lent ==> a in size && size[a] == lent[a] }

  ghost predicate HasBlock(r: seq<Block>, a: nat) { exists i :: 0 <= i < |r| && r[i].a == a }

  // ---------------------------------------------------------------- where free puts a block

  /** r[k] is the last block before address a. */
  ghost predicate Before(r: seq<Block>, k: nat, a: nat) { k < |r| && r[k].a < a && (k + 1 < |r| ==> a < r[k + 1].a) }

  lemma {:induction false} FindBefore(r: seq<Block>, a: nat, n: nat) returns (k: nat)
    requires Ordered(r) && r[0].a < a && 0 < n <= |r| && (forall i :: 0 <= i < |r| ==> r[i].a != a) && (n < |r| ==> a < r[n].a)
    ensures Before(r, k, a)
    decreases n
  {
    if r[n - 1].a < a { k := n - 1; } else { k := FindBefore(r, a, n - 1); }
  }

  /** A block that is handed out fits between its neighbours in the free list. */
  lemma LentFits(base: nat, brk: nat, r: seq<Block>, lent: map<nat, nat>, got: set<int>, a: nat, k: nat)
    requires Shared(base, brk, r, lent, got) && a in lent && Before(r, k, a)
    ensures Fits(r, k, Block(a, lent[a]))
  {
    if r[k].a + r[k].n > a { Overlap(r, lent, k, a, a); }
    if k + 1 < |r| && a + lent[a] > r[k + 1].a { Overlap(r, lent, k + 1, a, r[k + 1].a); }
  }

  lemma Overlap(r: seq<Block>, lent: map<nat, nat>, i: nat, a: nat, u: int)
    requires i < |r| && a in lent && Within(r[i], u) && Within(Block(a, lent[a]), u)
    ensures InRing(r, u) && InLent(lent, u)
  {
  }

  lemma LentNotFree(base: nat, brk: nat, r: seq<Block>, lent: map<nat, nat>, got: set<int>, a: nat)
    requires Shared(base, brk, r, lent, got) && a in lent
    ensures r[0].a < a && forall i :: 0 <= i < |r| ==> r[i].a != a
  {
    forall i | 0 <= i < |r| ensures r[i].a != a {
      if r[i].a == a && i > 0 { Overlap(r, lent, i, a, a); }
    }
  }

  /** The search in free stops at the block before a and nowhere else, also at the wrap of the ring. */
  lemma StopsThere(r: seq<Block>, k: nat, a: nat, i: nat)
    requires Ordered(r) && Before(r, k, a) && i < |r| && r[0].a < a
    ensures var (p, q) := (r[i].a, r[Nx(i, |r|)].a);
      ((a > p && a < q) || (p >= q && (a > p || a < q))) <==> i == k
  {
    assert i < k ==> r[i].a < r[i + 1].a <= r[k].a < a;
    assert i > k ==> a < r[k + 1].a <= r[i].a;
    assert i + 1 < |r| ==> r[i].a < r[i + 1].a;
  }

  /** A block handed back: its units move to the free list. */
  lemma FreeShares(base: nat, brk: nat, r: seq<Block>, lent: map<nat, nat>, got: set<int>, a: nat, k: nat)
    requires Shared(base, brk, r, lent, got) && a in lent && Before(r, k, a)
    ensures Shared(base, brk, Freed(r, k, Block(a, lent[a])), lent - {a}, got)
  {
    hide Freed, Fits, InRing, InLent, Ordered;
    LentFits(base, brk, r, lent, got, a, k);
    var b := Block(a, lent[a]);
    var f, l := Freed(r, k, b), lent - {a};
    FreedOrdered(r, k, b);
    forall u ensures InRing(f, u) <==> InRing(r, u) || Within(b, u) { FreedUnits(r, k, b, u); }
    forall u ensures InLent(lent, u) <==> InLent(l, u) || Within(b, u) { LentSplit(lent, a, u); }
    forall u ensures !(InLent(l, u) && Within(b, u)) { LentApart(lent, a, u); }
  }

  lemma LentSplit(lent: map<nat, nat>, a: nat, u: int)
    requires a in lent
    ensures InLent(lent, u) <==> InLent(lent - {a}, u) || Within(Block(a, lent[a]), u)
  {
    if InLent(lent, u) {
      var c :| c in lent && Within(Block(c, lent[c]), u);
      assert c != a ==> c in lent - {a} && (lent - {a})[c] == lent[c];
    }
    if InLent(lent - {a}, u) {
      var c :| c in lent - {a} && Within(Block(c, (lent - {a})[c]), u);
      assert c in lent && lent[c] == (lent - {a})[c];
    }
  }

  lemma LentApart(lent: map<nat, nat>, a: nat, u: int)
    requires a in lent && forall c, b :: c in lent && b in lent && c < b ==> c + lent[c] <= b
    ensures !(InLent(lent - {a}, u) && Within(Block(a, lent[a]), u))
  {
  }

  /** n units cut from entry k of the free list are handed out. */
  lemma TakeShares(base: nat, brk: nat, r: seq<Block>, lent: map<nat, nat>, got: set<int>, k: nat, n: nat)
    requires Shared(base, brk, r, lent, got) && 0 < k < |r| && 0 < n <= r[k].n
    ensures var c := Cut(r, k, n); c.a !in lent && Shared(base, brk, Taken(r, k, n), lent[c.a := n], got)
  {
    var c := Cut(r, k, n);
    hide Taken, InLent, Ordered;
    assert Ordered(r) && Within(c, c.a);
    assert forall u :: Within(c, u) ==> Within(r[k], u) && InRing(r, u);
    hide InRing, Cut;
    TakenOrdered(r, k, n);
    forall a | a in lent ensures a != c.a && (a < c.a ==> a + lent[a] <= c.a) && (c.a < a ==> c.a + n <= a) { LentBeside(lent, a, c, r); }
    var f, l := Taken(r, k, n), lent[c.a := n];
    forall u ensures InRing(f, u) <==> InRing(r, u) && !Within(c, u) { TakenUnits(r, k, n, u); }
    forall u ensures InLent(l, u) <==> InLent(lent, u) || Within(c, u) { LentJoin(lent, c, u); }
    forall a, b | a in l && b in l && a < b ensures a + l[a] <= b {
      assert a != c.a ==> a in lent && l[a] == lent[a];
      assert b != c.a ==> b in lent && l[b] == lent[b];
    }
    assert base < c.a;
  }

  lemma LentBeside(lent: map<nat, nat>, a: nat, c: Block, r: seq<Block>)
    requires a in lent && lent[a] > 0 && c.n > 0 && (forall u :: !(InRing(r, u) && InLent(lent, u))) && (forall u :: Within(c, u) ==> InRing(r, u))
    ensures a != c.a && (a < c.a ==> a + lent[a] <= c.a) && (c.a < a ==> c.a + c.n <= a)
  {
    var u := if a < c.a then c.a else a;
    if Within(Block(a, lent[a]), u) { assert InLent(lent, u); }
  }

  lemma LentJoin(lent: map<nat, nat>, c: Block, u: int)
    requires c.a !in lent
    ensures InLent(lent[c.a := c.n], u) <==> InLent(lent, u) || Within(c, u)
  {
    var l := lent[c.a := c.n];
    if InLent(l, u) {
      var x :| x in l && Within(Block(x, l[x]), u);
      assert x != c.a ==> x in lent && lent[x] == l[x];
    }
    if InLent(lent, u) {
      var x :| x in lent && Within(Block(x, lent[x]), u);
      assert x in l && l[x] == lent[x];
    }
    if Within(c, u) { assert c.a in l && l[c.a] == c.n; }
  }

  ghost function Units(b: Block): set<int> { set u | b.a <= u < b.a + b.n && Within(b, u) }

  /** Fresh units beyond everything got so far, as a block handed out. */
  lemma GrowShares(base: nat, brk: nat, r: seq<Block>, lent: map<nat, nat>, got: set<int>, c: Block)
    requires Shared(base, brk, r, lent, got) && c.a >= brk && c.n > 0
    ensures c.a !in lent && Shared(base, c.a + c.n, r, lent[c.a := c.n], got + Units(c))
  {
    hide InRing, InLent, Ordered;
    var l := lent[c.a := c.n];
    forall a | a in lent ensures a + lent[a] <= c.a { LastUnit(lent, a); }
    forall u ensures InLent(l, u) <==> InLent(lent, u) || Within(c, u) { LentJoin(lent, c, u); }
    forall a, b | a in l && b in l && a < b ensures a + l[a] <= b {
      assert a != c.a ==> a in lent && l[a] == lent[a];
      assert b != c.a ==> b in lent && l[b] == lent[b];
    }
    forall u ensures u in Units(c) <==> Within(c, u) { }
  }

  lemma LastUnit(lent: map<nat, nat>, a: nat)
    requires a in lent && lent[a] > 0
    ensures InLent(lent, a + lent[a] - 1)
  {
    assert Within(Block(a, lent[a]), a + lent[a] - 1);
  }

  // ---------------------------------------------------------------- walking the ring

  /** The index d steps after f. */
  function Idx(f: nat, d: nat, m: nat): nat { if f + d < m then f + d else f + d - m }

  /** The blocks 1 .. d steps after f are too small. */
  ghost predicate Small(r: seq<Block>, f: nat, d: nat, n: nat) {
    && f < |r| && d <= |r|
    && forall x :: 1 <= x <= d ==> 0 <= Idx(f, x, |r|) < |r| && r[Idx(f, x, |r|)].n < n
  }

  lemma IdxNext(f: nat, d: nat, m: nat)
    requires f < m && d < m
    ensures Idx(f, d, m) < m && Idx(f, d + 1, m) == Nx(Idx(f, d, m), m) && (Idx(f, d + 1, m) == f <==> d + 1 == m)
    ensures Idx(f, d + 1, m) > 0 ==> Idx(f, d, m) == Idx(f, d + 1, m) - 1
  {
  }

  lemma IndexOf(r: seq<Block>, a: nat) returns (f: nat)
    requires HasBlock(r, a)
    ensures f < |r| && r[f].a == a
  {
    f :| 0 <= f < |r| && r[f].a == a;
  }

  lemma IdxZero(f: nat, m: nat)
    requires f < m
    ensures Idx(f, 0, m) == f
  {
  }

  /** Once around, every block has been seen. */
  lemma AllSmall(r: seq<Block>, f: nat, n: nat)
    requires Small(r, f, |r|, n)
    ensures forall i :: 0 <= i < |r| ==> r[i].n < n
  {
    forall i | 0 <= i < |r| ensures r[i].n < n {
      var x := if i > f then i - f else i - f + |r|;
      assert Idx(f, x, |r|) == i;
    }
  }

  ghost predicate SomeFits(r: seq<Block>, n: nat) { exists i :: 0 <= i < |r| && r[i].n >= n }

  lemma FreedFits(r: seq<Block>, k: nat, b: Block)
    requires k < |r|
    ensures SomeFits(Freed(r, k, b), b.n)
  {
    FreedSize(r, k, b);
    FreedEntry(r, k, b, Where(r, k, b));
    assert Freed(r, k, b)[Where(r, k, b)].n >= b.n;
  }

  lemma FreedHas(r: seq<Block>, k: nat, b: Block)
    requires k < |r|
    ensures HasBlock(Freed(r, k, b), r[k].a)
  {
    FreedSize(r, k, b);
    FreedEntry(r, k, b, k);
    assert Freed(r, k, b)[k].a == r[k].a;
  }

  lemma TakenHas(r: seq<Block>, k: nat, n: nat)
    requires 0 < k < |r| && n <= r[k].n
    ensures HasBlock(Taken(r, k, n), r[k - 1].a)
  {
    TakenEntry(r, k, n, k - 1);
    assert Taken(r, k, n)[k - 1] == r[k - 1];
  }

  class Heap {
    /** &base */
    const base: nat
    /** 0 before the first malloc */
    var freep: nat
    var ptr: map<nat, nat>
    var size: map<nat, nat>
    /** The first address sbrk has not given to anybody. */
    var brk: nat
    ghost var ring: seq<Block>
    ghost var lent: map<nat, nat>
    ghost var got: set<int>

    ghost predicate Valid()
      reads this
    {
      && Shared(base, brk, ring, lent, got) && Headed(size, lent)
      && (freep == 0 ==> |ring| == 1 && lent == map[])
      && (freep != 0 ==> Chain(ptr, size, ring) && HasBlock(ring, freep))
    }

    constructor (base: nat, brk: nat)
      requires 0 < base < brk
      ensures Valid() && lent == map[] && got == {} && freep == 0
    {
      this.base, this.brk, freep := base, brk, 0;
      ptr, size := map[], map[];
      ring, lent, got := [Block(base, 0)], map[], {};
    }

    /** The search loop of free: the free block after which bp belongs. */
    method FindSpot(bp: nat) returns (p: nat, ghost k: nat)
      requires Valid() && bp in lent
      ensures Before(ring, k, bp) && p == ring[k].a
      ensures p in ptr && p < bp && (bp < ptr[p] || ptr[p] <= p)
    {
      hide Shared, Ordered, Chain, Before;
      LentNotFree(base, brk, ring, lent, got, bp);
      SharedParts(base, brk, ring, lent, got);
      k := FindBefore(ring, bp, |ring|);
      p := freep;
      ghost var i :| 0 <= i < |ring| && ring[i].a == freep;
      SpotTest(ptr, size, ring, k, bp, i);
      while !(bp > p && bp < ptr[p])
        invariant 0 <= i < |ring| && p == ring[i].a && p in ptr && ptr[p] == ring[Nx(i, |ring|)].a
        invariant (bp > p && bp < ptr[p]) || (p >= ptr[p] && (bp > p || bp < ptr[p])) <==> i == k
        decreases if k >= i then k - i else k - i + |ring|
      {
        if p >= ptr[p] && (bp > p || bp < ptr[p]) {
          break;
        }
        p := ptr[p];
        i := Nx(i, |ring|);
        SpotTest(ptr, size, ring, k, bp, i);
      }
      BeforeParts(ring, k, bp);
    }

    /** The header updates of free: bp goes behind p and joins the blocks it touches. */
    method Relink(p: nat, bp: nat, ghost k: nat)
      requires Ordered(ring) && Chain(ptr, size, ring) && k < |ring| && p == ring[k].a && bp in size && Fits(ring, k, Block(bp, size[bp]))
      modifies `ptr, `size
      ensures Relinked(old(ptr), old(size), ring, k, Block(bp, old(size)[bp]), ptr, size)
      ensures forall a :: a in old(size) && a != bp && a != p ==> a in size && size[a] == old(size)[a]
    {
      hide Ordered, Chain;
      ghost var r, b := ring, Block(bp, size[bp]);
      ChainAt(ptr, size, r, k);
      if k + 1 < |r| { ChainAt(ptr, size, r, k + 1); }
      JoinTests(r, k, b);
      SizeSame(size, bp);
      if bp + size[bp] == ptr[p] {
        var q := ptr[p];
        size := size[bp := size[bp] + size[q]];
        ptr := ptr[bp := ptr[q]];
      } else {
        ptr := ptr[bp := ptr[p]];
      }
      if p + size[p] == bp {
        size := size[p := size[p] + size[bp]];
        ptr := ptr[p := ptr[bp]];
      } else {
        ptr := ptr[p := bp];
      }
    }

    /** free: the block goes back to the free list and joins the free blocks it touches. */
    method Free(ap: nat)
      requires Valid() && ap > 0 && ap - 1 in lent
      modifies `freep, `ptr, `size, `ring, `lent
      ensures Valid() && freep != 0 && lent == old(lent) - {ap - 1} && got == old(got)
      ensures SomeFits(ring, old(lent)[ap - 1])
    {
      hide Shared, Ordered, Chain, Freed, Before, SomeFits, HasBlock, Relinked, Fits;
      var bp := ap - 1;
      ghost var r, b, l, ptr0, size0 := ring, Block(bp, lent[bp]), lent, ptr, size;
      ghost var k;
      var p;
      p, k := FindSpot(bp);
      LentFits(base, brk, r, l, got, bp, k);
      SharedParts(base, brk, r, l, got);
      Relink(p, bp, k);
      freep := p;
      ring := Freed(r, k, b);
      lent := lent - {bp};
      FreedChain(ptr0, size0, r, k, b, ptr, size);
      FreeShares(base, brk, r, l, got, bp, k);
      FreedFits(r, k, b);
      FreedHas(r, k, b);
      FreeAddr(base, brk, r, l, got, k);
      HeadedFreed(size0, size, l, bp, p);
    }

    /** morecore: grant is what sbrk answers: None for -1, or how far beyond brk the units start. */
    method Morecore(nunits: nat, grant: Option<nat>) returns (p: nat)
      requires Valid() && freep != 0 && nunits > 0
      modifies `freep, `ptr, `size, `ring, `lent, `brk, `got
      ensures Valid() && freep != 0 && lent == old(lent)
      ensures p == 0 <==> grant.None?
      ensures p == 0 ==> ring == old(ring) && got == old(got) && freep == old(freep) && brk == old(brk) && ptr == old(ptr) && size == old(size)
      ensures p != 0 ==> p == freep && SomeFits(ring, nunits)
      ensures p != 0 ==> got == old(got) + Units(Block(old(brk) + grant.value, if nunits < 4096 then 4096 else nunits))
    {
      hide Shared, Chain, InRing;
      var nu := nunits;
      if nu < 4096 {
        nu := 4096;
      }
      if grant.None? {
        return 0;
      }
      var hp := brk + grant.value;
      ghost var c := Block(hp, nu);
      GrowShares(base, brk, ring, lent, got, c);
      ghost var l := lent;
      NotHeader(base, brk, ring, lent, got, c.a);
      ChainOther(ptr, size, ring, c.a, nu);
      brk := hp + nu;
      size := size[hp := nu];
      lent := lent[hp := nu];
      got := got + Units(c);
      Free(hp + 1);
      assert lent == l;
      return freep;
    }

    /** p->s.ptr, one step around the ring. */
    method Follow(prevp: nat, ghost f: nat, ghost d: nat) returns (p: nat)
      requires Valid() && freep != 0 && f < |ring| && d < |ring| && Idx(f, d, |ring|) < |ring| && ring[Idx(f, d, |ring|)].a == prevp
      ensures Stands(ring, f, d, prevp, p)
    {
      hide Shared, Chain, Idx;
      IdxNext(f, d, |ring|);
      ChainAt(ptr, size, ring, Idx(f, d, |ring|));
      p := ptr[prevp];
    }

    /** The tail of malloc: cut nunits from the end of the block at p, or take all of it. */
    method Give(prevp: nat, p0: nat, ghost k: nat, nunits: nat) returns (r: nat)
      requires Valid() && freep != 0 && nunits > 0 && 0 < k < |ring| && ring[k].a == p0 && ring[k - 1].a == prevp && ring[k].n >= nunits
      modifies `freep, `ptr, `size, `ring, `lent
      ensures Valid() && r > 0 && r - 1 !in old(lent) && lent == old(lent)[r - 1 := nunits]
    {
      hide Shared, Chain, Taken, Ordered;
      SharedParts(base, brk, ring, lent, got);
      ChainAt(ptr, size, ring, k);
      ChainAt(ptr, size, ring, k - 1);
      TakeShares(base, brk, ring, lent, got, k, nunits);
      TakenHas(ring, k, nunits);
      FreeAddr(base, brk, ring, lent, got, k);
      FreeAddr(base, brk, ring, lent, got, k - 1);
      ghost var ring0, ptr0, size0 := ring, ptr, size;
      var p := p0;
      if size[p] == nunits {
        ptr := ptr[prevp := ptr[p]];
      } else {
        size := size[p := size[p] - nunits];
        p := p + size[p];
        size := size[p := nunits];
      }
      freep := prevp;
      ring := Taken(ring, k, nunits);
      lent := lent[p := nunits];
      assert p == Cut(ring0, k, nunits).a;
      assert Shortened(ptr0, size0, ring0, k, nunits, ptr, size);
      TakenChain(ptr0, size0, ring0, k, nunits, ptr, size);
      return p + 1;
    }

    /** morecore after a full turn of the search. */
    method Refill(ghost f: nat, ghost d: nat, nunits: nat, grant: Option<nat>) returns (p: nat, ghost f': nat)
      requires Valid() && freep != 0 && nunits > 0 && f < |ring| && d < |ring| && Idx(f, d + 1, |ring|) < |ring|
      requires Small(ring, f, d + 1, nunits) && ring[Idx(f, d + 1, |ring|)].a == freep == ring[f].a
      modifies `freep, `ptr, `size, `ring, `lent, `brk, `got
      ensures Valid() && freep != 0 && lent == old(lent) && (p == 0 <==> grant.None?)
      ensures !SomeFits(old(ring), nunits) && forall i :: 0 <= i < |old(ring)| ==> old(ring)[i].n < nunits
      ensures p == 0 ==> ring == old(ring) && got == old(got)
      ensures p != 0 ==> p == freep && f' < |ring| && Idx(f', 0, |ring|) < |ring| && ring[Idx(f', 0, |ring|)].a == p && ring[f'].a == p && Small(ring, f', 0, nunits)
      ensures p != 0 ==> forall r0, got0, brk0 :: Asked(0, grant, r0, got0, brk0, old(ring), old(got), old(brk), nunits) ==>
        Asked(1, grant, r0, got0, brk0, ring, got, brk, nunits)
    {
      hide Shared, Chain, Small, SomeFits, Idx, Units, HasBlock, Headed;
      AroundSmall(base, brk, ring, lent, got, f, d, nunits);
      p := Morecore(nunits, grant);
      f' := 0;
      if p != 0 {
        f' := IndexOf(ring, freep);
        SmallStart(ring, f', nunits);
        IdxZero(f', |ring|);
      }
    }

    /** The first malloc: base alone is the ring. */
    method Setup()
      requires Valid() && freep == 0
      modifies `freep, `ptr, `size
      ensures Valid() && freep == base != 0
    {
      hide Shared, Chain;
      OnlyBase(base, brk, ring, lent, got, ptr[base := base], size[base := 0]);
      ptr, size := ptr[base := base], size[base := 0];
      freep := base;
    }

    /** malloc: the address after the header of a block of enough units, or 0 if no free block was
        large enough and sbrk failed. env(i) is the answer to the i-th call of sbrk; calls counts
        them and is at most 1. */
    method Malloc(nbytes: nat, env: nat -> Option<nat>) returns (r: nat, calls: nat)
      requires Valid() && nbytes <= 0x7fff_ffe0
      modifies this
      ensures Valid() && calls <= 1
      ensures calls == 1 ==> forall i :: 0 <= i < |old(ring)| ==> old(ring)[i].n < NeededUnits(nbytes)
      ensures r == 0 ==> lent == old(lent) && got == old(got) && calls == 1 && env(0).None?
      ensures r != 0 ==> r - 1 !in old(lent) && lent == old(lent)[r - 1 := NeededUnits(nbytes)]
      ensures calls == 0 ==> got == old(got)
      ensures r != 0 && calls == 1 ==> env(0).Some? && got == old(got) + Units(Block(old(brk) + env(0).value, if NeededUnits(nbytes) < 4096 then 4096 else NeededUnits(nbytes)))
    {
      hide Shared, Chain, Small, SomeFits, Idx, Taken, Ordered, Cut, Units, HasBlock, Headed, Nx, Linked;
      var nunits := (nbytes + 16 - 1) / 16 + 1;
      var prevp := freep;
      if prevp == 0 {
        Setup();
        prevp := freep;
      }
      calls := 0;
      ghost var old_, oldlent, oldgot := ring, lent, got;
      ghost var f := IndexOf(ring, freep);
      ghost var d := 0;
      SmallStart(ring, f, nunits);
      IdxZero(f, |ring|);
      var p := Follow(prevp, f, d);
      while true
        invariant Valid() && freep != 0 && 0 <= f < |ring| && ring[f].a == freep && 0 <= d < |ring|
        invariant Stands(ring, f, d, prevp, p) && Small(ring, f, d, nunits)
        invariant lent == oldlent && Asked(calls, env(0), old_, oldgot, old(brk), ring, got, brk, nunits)
        decreases 1 - calls, |ring| - d
      {
        ghost var k := Idx(f, d + 1, |ring|);
        IdxNext(f, d, |ring|);
        SharedParts(base, brk, ring, lent, got);
        Standing(ptr, size, ring, f, d, prevp, p, k);
        if size[p] >= nunits {
          r := Give(prevp, p, k, nunits);
          return;
        }
        SmallNext(ring, f, d, nunits);
        if p == freep {
          ghost var (r1, got1, brk1) := (ring, got, brk);
          p, f := Refill(f, d, nunits, env(calls));
          NotAsked(calls, env(0), old_, oldgot, old(brk), r1, got1, brk1, nunits);
          calls := calls + 1;
          if p == 0 {
            return 0, calls;
          }
          d := 0;
        } else {
          d := d + 1;
        }
        prevp := p;
        p := Follow(prevp, f, d);
      }
    }
  }

  /** The header and the units for nbytes bytes. */
  function NeededUnits(nbytes: nat): (n: nat)
    ensures n > 0 && 16 * (n - 1) >= nbytes && 16 * n < nbytes + 32
  {
    (nbytes + 15) / 16 + 1
  }

  /** prevp is d steps after freep, and p is the next block. */
  ghost predicate Stands(r: seq<Block>, f: nat, d: nat, prevp: nat, p: nat) {
    && f < |r| && d < |r| && Idx(f, d, |r|) < |r| && r[Idx(f, d, |r|)].a == prevp
    && Idx(f, d + 1, |r|) < |r| && r[Idx(f, d + 1, |r|)].a == p
  }

  /** What one call of morecore, or none, has led to. */
  ghost predicate Asked(calls: nat, grant: Option<nat>, r0: seq<Block>, got0: set<int>, brk0: nat, r: seq<Block>, got: set<int>, brk: nat, n: nat) {
    && calls <= 1 && (calls == 0 ==> r == r0 && got == got0 && brk == brk0)
    && (calls == 1 ==>
          && SomeFits(r, n) && grant.Some? && (forall i :: 0 <= i < |r0| ==> r0[i].n < n)
          && got == got0 + Units(Block(brk0 + grant.value, if n < 4096 then 4096 else n)))
  }

  /** If no block is large enough, morecore has not been called: it would have left one. */
  lemma NotAsked(calls: nat, grant: Option<nat>, r0: seq<Block>, got0: set<int>, brk0: nat, r: seq<Block>, got: set<int>, brk: nat, n: nat)
    requires Asked(calls, grant, r0, got0, brk0, r, got, brk, n) && !SomeFits(r, n)
    ensures calls == 0
  {
  }

  lemma ChainAt(ptr: map<nat, nat>, size: map<nat, nat>, r: seq<Block>, i: nat)
    requires Chain(ptr, size, r) && i < |r|
    ensures Linked(ptr, size, r, i)
  {
  }

  lemma SizeSame(size: map<nat, nat>, a: nat)
    requires a in size
    ensures size[a := size[a]] == size
  {
  }

  lemma BeforeParts(r: seq<Block>, k: nat, a: nat)
    requires Before(r, k, a)
    ensures k < |r| && r[k].a < a
  {
  }

  lemma SpotTest(ptr: map<nat, nat>, size: map<nat, nat>, r: seq<Block>, k: nat, a: nat, i: nat)
    requires Ordered(r) && Before(r, k, a) && i < |r| && r[0].a < a && Chain(ptr, size, r)
    ensures r[i].a in ptr && ptr[r[i].a] == r[Nx(i, |r|)].a && k < |r|
    ensures var (p, q) := (r[i].a, r[Nx(i, |r|)].a); ((a > p && a < q) || (p >= q && (a > p || a < q))) <==> i == k
  {
    hide Ordered;
    ChainAt(ptr, size, r, i);
    StopsThere(r, k, a, i);
  }

  lemma SharedParts(base: nat, brk: nat, r: seq<Block>, lent: map<nat, nat>, got: set<int>)
    requires Shared(base, brk, r, lent, got)
    ensures Ordered(r) && |r| > 0 && r[0] == Block(base, 0) && 0 < base < brk
  {
  }

  lemma JoinTests(r: seq<Block>, k: nat, b: Block)
    requires Ordered(r) && Fits(r, k, b)
    ensures b.a + b.n == r[Nx(k, |r|)].a <==> JoinsRight(r, k, b)
  {
    assert k > 0 ==> r[0].a + r[0].n < r[k].a;
  }

  lemma FreeAddr(base: nat, brk: nat, r: seq<Block>, lent: map<nat, nat>, got: set<int>, k: nat)
    requires Shared(base, brk, r, lent, got) && k < |r|
    ensures r[k].a > 0 && r[k].a !in lent
  {
    assert k > 0 ==> r[0].a + r[0].n < r[k].a;
    if r[k].a in lent { LentNotFree(base, brk, r, lent, got, r[k].a); }
  }

  lemma HeadedFreed(size: map<nat, nat>, size': map<nat, nat>, lent: map<nat, nat>, bp: nat, p: nat)
    requires Headed(size, lent) && p !in lent && forall a :: a in size && a != bp && a != p ==> a in size' && size'[a] == size[a]
    ensures Headed(size', lent - {bp})
  {
  }

  /** An address beyond brk is no header of a free block. */
  lemma NotHeader(base: nat, brk: nat, r: seq<Block>, lent: map<nat, nat>, got: set<int>, a: nat)
    requires Shared(base, brk, r, lent, got) && a >= brk
    ensures forall i :: 0 <= i < |r| ==> r[i].a != a
  {
    forall i | 0 <= i < |r| ensures r[i].a != a {
      if i > 0 { assert Within(r[i], r[i].a) && InRing(r, r[i].a); }
    }
  }

  lemma ChainOther(ptr: map<nat, nat>, size: map<nat, nat>, r: seq<Block>, a: nat, n: nat)
    requires Chain(ptr, size, r) && forall i :: 0 <= i < |r| ==> r[i].a != a
    ensures Chain(ptr, size[a := n], r)
  {
  }

  lemma OnlyBase(base: nat, brk: nat, r: seq<Block>, lent: map<nat, nat>, got: set<int>, ptr: map<nat, nat>, size: map<nat, nat>)
    requires Shared(base, brk, r, lent, got) && |r| == 1 && base in ptr && ptr[base] == base && base in size && size[base] == 0
    ensures Chain(ptr, size, r) && HasBlock(r, base) && base > 0
  {
    assert r[0].a == base;
  }

  lemma SmallStart(r: seq<Block>, f: nat, n: nat)
    requires f < |r|
    ensures Small(r, f, 0, n)
  {
  }

  lemma SmallNext(r: seq<Block>, f: nat, d: nat, n: nat)
    requires Small(r, f, d, n) && d < |r| && Idx(f, d + 1, |r|) < |r| && r[Idx(f, d + 1, |r|)].n < n
    ensures Small(r, f, d + 1, n)
  {
  }

  lemma Standing(ptr: map<nat, nat>, size: map<nat, nat>, r: seq<Block>, f: nat, d: nat, prevp: nat, p: nat, k: nat)
    requires Chain(ptr, size, r) && Stands(r, f, d, prevp, p) && k == Idx(f, d + 1, |r|)
    ensures p in size && size[p] == r[k].n
  {
  }

  /** Back at freep, no free block is large enough. */
  lemma AroundSmall(base: nat, brk: nat, r: seq<Block>, lent: map<nat, nat>, got: set<int>, f: nat, d: nat, n: nat)
    requires Shared(base, brk, r, lent, got) && Small(r, f, d + 1, n) && f < |r| && d < |r| && Idx(f, d + 1, |r|) < |r|
    requires r[Idx(f, d + 1, |r|)].a == r[f].a
    ensures !SomeFits(r, n) && forall i :: 0 <= i < |r| ==> r[i].n < n
  {
    hide Small;
    IdxNext(f, d, |r|);
    assert Idx(f, d + 1, |r|) == f by { Distinct(r, Idx(f, d + 1, |r|), f); }
    AllSmall(r, f, n);
  }

  lemma Distinct(r: seq<Block>, i: nat, j: nat)
    requires Ordered(r) && i < |r| && j < |r| && r[i].a == r[j].a
    ensures i == j
  {
  }
}
