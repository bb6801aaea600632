/** The per-CPU page allocator of xv6-lab-locks/kalloc.c: the division of memory among the lists,
    pa2cpuid, kinit, kfree, and kalloc with stealing. */
module PercpuPages {
  import opened Common

  const PGSIZE := 4096

  /** ncpu lists for the memory from end (any address) up to stop (PHYSTOP, on a page boundary). */
  datatype Layout = Layout(ncpu: nat, end: nat, stop: nat) {
    ghost predicate Ok() { 0 < ncpu && end <= stop && stop % PGSIZE == 0 }
    function Chunk(): nat requires 0 < ncpu && end <= stop { (stop - end) / ncpu }
    /** Where the part of CPU id starts. */
    function Start(id: nat): nat requires 0 < ncpu && end <= stop { end + id * Chunk() }
    /** What the division leaves over. */
    function Rest(): nat requires 0 < ncpu && end <= stop { (stop - end) % ncpu }
  }

  predicate IsPage(l: Layout, p: nat) { p % PGSIZE == 0 && l.end <= p < l.stop }

  /** The page [p, p + PGSIZE) lies inside the range that kinit frees for CPU id. */
  predicate InPart(l: Layout, id: nat, p: nat)
    requires 0 < l.ncpu && l.end <= l.stop
  {
    IsPage(l, p) && l.Start(id) <= p && p + PGSIZE <= l.Start(id + 1) + l.Rest()
  }

  ghost predicate Given(l: Layout, n: nat, p: nat)
    requires 0 < l.ncpu && l.end <= l.stop
  {
    exists id :: 0 <= id < n && InPart(l, id, p)
  }

  // ---------------------------------------------------------------- arithmetic of the division

  lemma {:induction false} StartMono(l: Layout, i: nat, j: nat)
    requires l.Ok()
    ensures i <= j ==> l.Start(i) <= l.Start(j)
    ensures l.Start(i + 1) == l.Start(i) + l.Chunk()
    ensures l.Start(l.ncpu) + l.Rest() == l.stop && l.Rest() < l.ncpu && l.Start(0) == l.end
  {
    if i <= j { MulMono(i, j, l.Chunk()); }
    assert (i + 1) * l.Chunk() == i * l.Chunk() + l.Chunk();
    assert l.stop - l.end == l.ncpu * l.Chunk() + l.Rest();
  }

  /** kinit writes the end of part id as PHYSTOP - (NCPU-id-1)*chunk. */
  lemma StopOf(l: Layout, id: nat)
    requires l.Ok() && id < l.ncpu
    ensures l.stop - (l.ncpu - id - 1) * l.Chunk() == l.Start(id + 1) + l.Rest()
  {
    StartMono(l, 0, 0);
    assert l.ncpu * l.Chunk() == (l.ncpu - id - 1) * l.Chunk() + (id + 1) * l.Chunk();
  }

  /** No page lies in two parts: neighbouring parts share only Rest() bytes. */
  lemma PartsApart(l: Layout, i: nat, j: nat, p: nat)
    requires l.Ok() && l.ncpu <= PGSIZE && i < j && InPart(l, i, p)
    ensures !InPart(l, j, p)
  {
    StartMono(l, i + 1, j);
  }

  lemma {:induction false} FindPart(l: Layout, p: nat, n: nat) returns (id: nat)
    requires l.Ok() && n > 0 && l.end <= p < l.Start(n)
    ensures id < n && l.Start(id) <= p < l.Start(id + 1)
    decreases n
  {
    StartMono(l, 0, 0);
    if p >= l.Start(n - 1) { id := n - 1; } else { id := FindPart(l, p, n - 1); }
  }

  function Down(a: nat): nat { a - a % PGSIZE }

  /** A page that kinit does not free lies across the boundary of two parts. */
  lemma LostAtBoundary(l: Layout, p: nat) returns (id: nat)
    requires l.Ok() && l.ncpu <= PGSIZE && IsPage(l, p) && !Given(l, l.ncpu, p)
    ensures 0 < id < l.ncpu && p == Down(l.Start(id))
  {
    StartMono(l, 0, 0);
    PageEnd(p, l.stop);
    var k := FindPart(l, p, l.ncpu);
    assert !InPart(l, k, p);
    StartMono(l, k, k);
    DownOf(p, l.Start(k + 1));
    if k + 1 == l.ncpu { assert false; }
    id := k + 1;
  }

  lemma PageEnd(p: nat, stop: nat)
    requires p % PGSIZE == 0 && stop % PGSIZE == 0 && p < stop
    ensures p + PGSIZE <= stop
  {
  }

  lemma DownOf(p: nat, a: nat)
    requires p % PGSIZE == 0 && p < a < p + PGSIZE
    ensures Down(a) == p
  {
  }

  ghost function Boundaries(l: Layout, n: nat): set<nat>
    requires l.Ok()
  {
    if n <= 1 then {} else Boundaries(l, n - 1) + {Down(l.Start(n - 1))}
  }

  lemma {:induction false} BoundariesFew(l: Layout, n: nat)
    requires l.Ok() && n > 0
    ensures |Boundaries(l, n)| <= n - 1 && forall id :: 0 < id < n ==> Down(l.Start(id)) in Boundaries(l, n)
  {
    if n > 1 {
      BoundariesFew(l, n - 1);
    }
  }

  /** kinit loses at most NCPU-1 pages, whatever the remainder of the division. */
  lemma LosesFew(l: Layout, lost: set<nat>)
    requires l.Ok() && l.ncpu <= PGSIZE && forall p :: p in lost ==> IsPage(l, p) && !Given(l, l.ncpu, p)
    ensures |lost| <= l.ncpu - 1
  {
    BoundariesFew(l, l.ncpu);
    forall p | p in lost ensures p in Boundaries(l, l.ncpu) {
      var id := LostAtBoundary(l, p);
    }
    SubsetSize(lost, Boundaries(l, l.ncpu));
  }

  // ---------------------------------------------------------------- the lists

  /** The list pa2cpuid selects; -1 if none. */
  ghost predicate SelectedBy(l: Layout, pa: nat, id: int)
    requires l.Ok()
  {
    if l.end <= pa <= l.Start(l.ncpu) then 0 <= id < l.ncpu && l.Start(id) <= pa <= l.Start(id + 1) && (id > 0 ==> l.Start(id) < pa)
    else id == -1
  }

  /** Every page of the managed memory is selected. */
  lemma EveryPageSelected(l: Layout, p: nat)
    requires l.Ok() && l.ncpu <= PGSIZE && IsPage(l, p)
    ensures l.end <= p <= l.Start(l.ncpu)
  {
    StartMono(l, 0, 0);
    PageEnd(p, l.stop);
  }

  predicate OnList(lists: seq<seq<nat>>, p: nat) { exists i :: 0 <= i < |lists| && p in lists[i] }

  /** No page is on two lists or twice on one. */
  ghost predicate Once(lists: seq<seq<nat>>) {
    && (forall i, j, k :: 0 <= i < |lists| && 0 <= j < k < |lists[i]| ==> lists[i][j] != lists[i][k])
    && forall i, i', p :: 0 <= i < i' < |lists| && p in lists[i] ==> p !in lists[i']
  }

  lemma PushOnce(lists: seq<seq<nat>>, i: nat, p: nat)
    requires Once(lists) && i < |lists| && !OnList(lists, p)
    ensures Once(lists[i := [p] + lists[i]])
    ensures forall q :: OnList(lists[i := [p] + lists[i]], q) <==> OnList(lists, q) || q == p
  {
    var m := lists[i := [p] + lists[i]];
    forall a, j, k | 0 <= a < |m| && 0 <= j < k < |m[a]| ensures m[a][j] != m[a][k] {
      if a == i { assert j == 0 ==> m[a][k] in lists[i]; }
    }
    forall q ensures OnList(m, q) <==> OnList(lists, q) || q == p {
      if OnList(lists, q) {
        var a :| 0 <= a < |lists| && q in lists[a];
        assert q in m[a];
      }
      if q == p { assert q in m[i]; }
    }
  }

  lemma PopOnce(lists: seq<seq<nat>>, i: nat)
    requires Once(lists) && i < |lists| && lists[i] != []
    ensures Once(lists[i := lists[i][1..]])
    ensures forall q :: OnList(lists[i := lists[i][1..]], q) <==> OnList(lists, q) && q != lists[i][0]
  {
    var m, p := lists[i := lists[i][1..]], lists[i][0];
    forall q ensures OnList(m, q) <==> OnList(lists, q) && q != p {
      if OnList(m, q) {
        var a :| 0 <= a < |m| && q in m[a];
        assert q in lists[a];
        assert a != i ==> p !in lists[a];
      }
      if OnList(lists, q) && q != p {
        var a :| 0 <= a < |lists| && q in lists[a];
        assert q in m[a];
      }
    }
  }

  class Memory {
    const l: Layout
    /** kmem[].freelist, head first */
    var lists: seq<seq<nat>>

    ghost predicate Valid()
      reads this
    {
      l.Ok() && |lists| == l.ncpu && Once(lists) && forall p :: OnList(lists, p) ==> IsPage(l, p)
    }

    /** pa2cpuid: a search over the parts, ends included. */
    method Pa2cpuid(pa: nat) returns (r: int)
      requires l.Ok()
      ensures SelectedBy(l, pa, r)
    {
      hide Layout.Start, Layout.Rest;
      var chunk := l.Chunk();
      hide Layout.Chunk;
      var id, start, stop := 0, l.end, l.end + chunk;
      StartMono(l, 0, 0);
      while stop <= l.stop && id < l.ncpu
        invariant 0 <= id <= l.ncpu && start == l.Start(id) && stop == l.Start(id + 1)
        invariant pa < l.end || id == 0 || pa > l.Start(id)
        decreases l.ncpu - id
      {
        if pa <= stop && pa >= start {
          StartMono(l, id + 1, l.ncpu);
          StartMono(l, 0, id);
          return id;
        }
        StartMono(l, id + 1, id + 1);
        StartMono(l, id, l.ncpu);
        id, start, stop := id + 1, start + chunk, stop + chunk;
      }
      StartMono(l, id + 1, l.ncpu);
      return -1;
    }

    /** kfree; ok is false where the kernel panics. */
    method Kfree(pa: nat) returns (ok: bool)
      requires Valid() && !OnList(lists, pa)
      modifies this
      ensures Valid() && (ok <==> IsPage(l, pa) && pa <= l.Start(l.ncpu))
      ensures !ok ==> lists == old(lists)
      ensures ok ==> exists id :: SelectedBy(l, pa, id) && 0 <= id < l.ncpu && lists == old(lists)[id := [pa] + old(lists)[id]]
      ensures forall q :: OnList(lists, q) <==> old(OnList(lists, q)) || (ok && q == pa)
    {
      if pa % PGSIZE != 0 || pa < l.end || pa >= l.stop {
        return false;
      }
      var tid := Pa2cpuid(pa);
      if tid < 0 {
        return false;
      }
      PushOnce(lists, tid, pa);
      lists := lists[tid := [pa] + lists[tid]];
      return true;
    }

    /** freerange: every whole page of the range, none of which may be free already. */
    method Freerange(from: nat, upto: nat) returns (ok: bool)
      requires Valid() && l.ncpu <= PGSIZE && l.end <= from && upto <= l.stop
      requires forall p: nat :: FreedBetween(from, upto, upto, p) ==> !OnList(lists, p)
      modifies this
      ensures Valid() && ok
      ensures forall q: nat :: OnList(lists, q) <==> (old(OnList(lists, q)) || FreedBetween(from, upto, upto, q))
    {
      hide OnList, Once, SelectedBy, Layout.Start, Layout.Rest, Layout.Chunk;
      var p := (from + PGSIZE - 1) / PGSIZE * PGSIZE;
      forall q: nat ensures !FreedBetween(from, p, upto, q) { FirstPage(from, upto, q); }
      FirstPage(from, upto, 0);
      while p + PGSIZE <= upto
        invariant p % PGSIZE == 0 && from <= p && Valid()
        invariant forall q: nat :: OnList(lists, q) <==> (old(OnList(lists, q)) || FreedBetween(from, p, upto, q))
        decreases upto - p
      {
        EveryPageSelected(l, p);
        forall q: nat ensures FreedBetween(from, p + PGSIZE, upto, q) <==> FreedBetween(from, p, upto, q) || q == p { NextPage(from, p, upto, q); }
        assert FreedBetween(from, upto, upto, p) && !FreedBetween(from, p, upto, p);
        ok := Kfree(p);
        p := p + PGSIZE;
      }
      forall q: nat ensures FreedBetween(from, p, upto, q) <==> FreedBetween(from, upto, upto, q) { LastPage(from, p, upto, q); }
      return true;
    }

    /** kinit: no page is freed twice, and the free pages are exactly those inside a part. */
    constructor Kinit(l: Layout)
      requires l.Ok() && l.ncpu <= PGSIZE
      ensures Valid() && this.l == l
      ensures forall p :: OnList(lists, p) <==> Given(l, l.ncpu, p)
    {
      this.l := l;
      lists := seq(l.ncpu, _ => []);
      new;
      var chunk := l.Chunk();
      var id := 0;
      while id < l.ncpu
        invariant 0 <= id <= l.ncpu && Valid()
        invariant forall p :: OnList(lists, p) <==> Given(l, id, p)
      {
        StartMono(l, id + 1, l.ncpu);
        StopOf(l, id);
        PartPages(l, id);
        var from, upto := l.end + id * chunk, l.stop - (l.ncpu - id - 1) * chunk;
        var ok := Freerange(from, upto);
        id := id + 1;
      }
    }

    /** find_freepage: the head of the first other list that has one. */
    method Steal(sid: nat) returns (r: Option<nat>)
      requires Valid() && sid < l.ncpu
      modifies this
      ensures Valid()
      ensures r.None? ==> lists == old(lists) && forall i :: 0 <= i < l.ncpu && i != sid ==> lists[i] == []
      ensures r.Some? ==> exists id :: StolenFrom(old(lists), lists, sid, id, r.value)
    {
      var id := 0;
      while id < l.ncpu
        invariant 0 <= id <= l.ncpu && lists == old(lists) && forall i :: 0 <= i < id && i != sid ==> lists[i] == []
      {
        if id != sid && lists[id] != [] {
          PopOnce(lists, id);
          var p := lists[id][0];
          lists := lists[id := lists[id][1..]];
          assert StolenFrom(old(lists), lists, sid, id, p);
          return Some(p);
        }
        id := id + 1;
      }
      return None;
    }

    /** kalloc on CPU cid without interference: fails only if every list is empty. */
    method Kalloc(cid: nat) returns (r: Option<nat>)
      requires Valid() && cid < l.ncpu
      modifies this
      ensures Valid() && (r.None? <==> forall p :: !old(OnList(lists, p)))
      ensures r.None? ==> lists == old(lists)
      ensures r.Some? ==> IsPage(l, r.value) && TookFrom(old(lists), lists, r.value) && !OnList(lists, r.value)
      ensures r.Some? ==> forall q :: OnList(lists, q) <==> old(OnList(lists, q)) && q != r.value
      ensures r.Some? && old(lists)[cid] != [] ==> lists == old(lists)[cid := old(lists)[cid][1..]] && r.value == old(lists)[cid][0]
    {
      if lists[cid] != [] {
        PopOnce(lists, cid);
        assert lists[cid][0] in lists[cid] && OnList(lists, lists[cid][0]);
        r := Some(lists[cid][0]);
        lists := lists[cid := lists[cid][1..]];
      } else {
        r := Steal(cid);
        if r.Some? {
          ghost var i: nat :| StolenFrom(old(lists), lists, cid, i, r.value);
          PopOnce(old(lists), i);
          assert r.value in old(lists)[i] && OnList(old(lists), r.value);
        } else {
          assert forall i :: 0 <= i < |lists| ==> lists[i] == [];
          assert forall p :: !OnList(lists, p);
        }
      }
    }
  }

  /** List id lost its head p, and it is the first list other than sid that had one. */
  ghost predicate StolenFrom(before: seq<seq<nat>>, after: seq<seq<nat>>, sid: nat, id: nat, p: nat) {
    && id < |before| && id != sid && before[id] != [] && p == before[id][0] && after == before[id := before[id][1..]]
    && forall i :: 0 <= i < id && i != sid ==> before[i] == []
  }

  /** One list lost its head p. */
  ghost predicate TookFrom(before: seq<seq<nat>>, after: seq<seq<nat>>, p: nat) {
    exists i :: 0 <= i < |before| && before[i] != [] && p == before[i][0] && after == before[i := before[i][1..]]
  }

  /** The pages that freerange(from, upto) frees before it reaches p. */
  predicate FreedBetween(from: nat, p: nat, upto: nat, q: nat) { q % PGSIZE == 0 && from <= q < p && q + PGSIZE <= upto }

  lemma NextPage(from: nat, p: nat, upto: nat, q: nat)
    requires p % PGSIZE == 0 && from <= p && p + PGSIZE <= upto
    ensures FreedBetween(from, p + PGSIZE, upto, q) <==> FreedBetween(from, p, upto, q) || q == p
  {
  }

  lemma FirstPage(from: nat, upto: nat, q: nat)
    ensures var p := (from + PGSIZE - 1) / PGSIZE * PGSIZE; p % PGSIZE == 0 && from <= p < from + PGSIZE && !FreedBetween(from, p, upto, q)
  {
  }

  lemma LastPage(from: nat, p: nat, upto: nat, q: nat)
    requires p % PGSIZE == 0 && from <= p && p + PGSIZE > upto
    ensures FreedBetween(from, p, upto, q) <==> FreedBetween(from, upto, upto, q)
  {
  }

  /** The pages of part id are on no list yet. */
  lemma PartPages(l: Layout, id: nat)
    requires l.Ok() && l.ncpu <= PGSIZE && id < l.ncpu
    ensures l.end <= l.Start(id) && l.Start(id + 1) + l.Rest() <= l.stop
    ensures forall p: nat :: FreedBetween(l.Start(id), l.Start(id + 1) + l.Rest(), l.Start(id + 1) + l.Rest(), p) <==> InPart(l, id, p)
    ensures forall p :: InPart(l, id, p) ==> !Given(l, id, p)
    ensures forall p :: Given(l, id + 1, p) <==> Given(l, id, p) || InPart(l, id, p)
  {
    StartMono(l, 0, id);
    StartMono(l, id + 1, l.ncpu);
    forall p | InPart(l, id, p) ensures !Given(l, id, p) {
      if Given(l, id, p) {
        var k :| 0 <= k < id && InPart(l, k, p);
        PartsApart(l, k, id, p);
      }
    }
  }
}
