/** The allocator of xv6-lab-pagetables/user/umalloc.c, after section 8.7 of The C Programming Language,
    2nd edition. Addresses count headers of 16 bytes. The header words ptr and size are maps from the
    address of a header; ring, lent and got are history variables: the free list in address order
    from base on, the blocks handed out, and the units obtained from sbrk. */
module UserHeap {
  import opened Common

  /** n units from address a on, header included. */
  datatype Block = Block(a: nat, n: nat)

  // ---------------------------------------------------------------- the free list as a sequence

  /** base first, addresses increasing, no two blocks overlapping or touching, none but base empty. */
  ghost predicate Ordered(r: seq<Block>) {
    && |r| > 0 && r[0].n == 0
    && (forall i :: 0 < i < |r| ==> r[i].n > 0)
    && forall i, j :: 0 <= i < j < |r| ==> r[i].a + r[i].n < r[j].a
  }

  predicate Within(b: Block, u: int) { b.a <= u < b.a + b.n }

  ghost predicate InRing(r: seq<Block>, u: int) { exists i :: 0 <= i < |r| && Within(r[i], u) }

  function Nx(i: nat, m: nat): nat { if i + 1 < m then i + 1 else 0 }

  /** The headers of the blocks of r are linked into one ring with one wrap from the last to base. */
  ghost predicate Chain(ptr: map<nat, nat>, size: map<nat, nat>, r: seq<Block>) {
    forall i :: 0 <= i < |r| ==>
      && r[i].a in ptr && r[i].a in size && size[r[i].a] == r[i].n && ptr[r[i].a] == r[Nx(i, |r|)].a
  }

  /** b goes between r[k] and the block after it. */
  ghost predicate Fits(r: seq<Block>, k: nat, b: Block) {
    && k < |r| && b.n > 0 && r[k].a + r[k].n <= b.a && (k == 0 ==> r[0].a < b.a)
    && (k + 1 < |r| ==> b.a + b.n <= r[k + 1].a)
  }

  predicate JoinsRight(r: seq<Block>, k: nat, b: Block) { k + 1 < |r| && b.a + b.n == r[k + 1].a }
  predicate JoinsLeft(r: seq<Block>, k: nat, b: Block) { k < |r| && r[k].a + r[k].n == b.a }

  /** b together with the block it touches on the right. */
  function WithRight(r: seq<Block>, k: nat, b: Block): Block {
    if JoinsRight(r, k, b) then Block(b.a, b.n + r[k + 1].n) else b
  }

  function After(r: seq<Block>, k: nat, b: Block): nat { if JoinsRight(r, k, b) then k + 2 else k + 1 }

  /** The free list with b put back behind r[k]. */
  function Freed(r: seq<Block>, k: nat, b: Block): seq<Block>
    requires k < |r|
  {
    var c := WithRight(r, k, b);
    var rest := r[After(r, k, b)..];
    if JoinsLeft(r, k, b) then r[..k] + [Block(r[k].a, r[k].n + c.n)] + rest else r[..k + 1] + [c] + rest
  }

  /** Where the block with b ends up, and that block. */
  function Where(r: seq<Block>, k: nat, b: Block): nat { if JoinsLeft(r, k, b) then k else k + 1 }

  function Merged(r: seq<Block>, k: nat, b: Block): Block
    requires k < |r|
  {
    var c := WithRight(r, k, b);
    if JoinsLeft(r, k, b) then Block(r[k].a, r[k].n + c.n) else c
  }

  lemma FreedEntry(r: seq<Block>, k: nat, b: Block, i: nat)
    requires k < |r| && i < |Freed(r, k, b)|
    ensures var f, at, e := Freed(r, k, b), Where(r, k, b), After(r, k, b);
      && |f| == at + 1 + |r| - e
      && (i < at ==> f[i] == r[i]) && (i == at ==> f[i] == Merged(r, k, b))
      && (i > at ==> 0 <= i - at - 1 + e < |r| && f[i] == r[i - at - 1 + e])
  {
  }

  lemma FreedSize(r: seq<Block>, k: nat, b: Block)
    requires k < |r|
    ensures |Freed(r, k, b)| == Where(r, k, b) + 1 + |r| - After(r, k, b) && Where(r, k, b) <= After(r, k, b) <= |r|
  {
  }

  /** The merged block lies strictly between its neighbours. */
  lemma MergedBetween(r: seq<Block>, k: nat, b: Block, j: nat)
    requires k < |r| && Ordered(r) && Fits(r, k, b) && j < |r|
    ensures j < Where(r, k, b) ==> r[j].a + r[j].n < Merged(r, k, b).a
    ensures j >= After(r, k, b) ==> Merged(r, k, b).a + Merged(r, k, b).n < r[j].a
    ensures Merged(r, k, b).n > 0 && Where(r, k, b) > 0
  {
    assert r[0].a + r[0].n == r[0].a && (0 < k ==> r[0].a + r[0].n < r[k].a);
    assert j < k ==> r[j].a + r[j].n < r[k].a;
    assert k + 1 < j ==> r[k + 1].a + r[k + 1].n < r[j].a;
    assert k < j ==> r[k].a + r[k].n < r[j].a;
  }

  lemma FreedOrdered(r: seq<Block>, k: nat, b: Block)
    requires k < |r| && Ordered(r) && Fits(r, k, b)
    ensures Ordered(Freed(r, k, b)) && Freed(r, k, b)[0] == r[0]
  {
    hide Freed, Fits, Merged, Where, After;
    var f := Freed(r, k, b);
    FreedSize(r, k, b);
    FreedEntry(r, k, b, 0);
    MergedBetween(r, k, b, 0);
    forall i | 0 < i < |f| ensures f[i].n > 0 { FreedEntry(r, k, b, i); }
    forall i, j | 0 <= i < j < |f| ensures f[i].a + f[i].n < f[j].a { FreedPair(r, k, b, i, j); }
  }

  lemma FreedPair(r: seq<Block>, k: nat, b: Block, i: nat, j: nat)
    requires k < |r| && Ordered(r) && Fits(r, k, b) && i < j < |Freed(r, k, b)|
    ensures Freed(r, k, b)[i].a + Freed(r, k, b)[i].n < Freed(r, k, b)[j].a
  {
    hide Freed, Fits, Merged, Where, After;
    FreedSize(r, k, b);
    FreedEntry(r, k, b, i);
    FreedEntry(r, k, b, j);
    var at, e := Where(r, k, b), After(r, k, b);
    if i < at { MergedBetween(r, k, b, i); }
    if j > at { MergedBetween(r, k, b, j - at - 1 + e); }
  }

  /** Exactly the units of b are added. */
  lemma FreedUnits(r: seq<Block>, k: nat, b: Block, u: int)
    requires k < |r| && Ordered(r) && Fits(r, k, b)
    ensures InRing(Freed(r, k, b), u) <==> InRing(r, u) || Within(b, u)
  {
    hide Freed, Fits, Merged, Where, After, Within, Ordered;
    var f, at, e := Freed(r, k, b), Where(r, k, b), After(r, k, b);
    FreedSize(r, k, b);
    MergedUnits(r, k, b, u);
    if InRing(f, u) {
      var i :| 0 <= i < |f| && Within(f[i], u);
      FreedEntry(r, k, b, i);
    }
    if InRing(r, u) {
      var i :| 0 <= i < |r| && Within(r[i], u);
      var i' := if i < at then i else if i < e then at else i - e + at + 1;
      FreedEntry(r, k, b, i');
      assert Within(f[i'], u);
    }
    if Within(b, u) {
      FreedEntry(r, k, b, at);
      assert Within(f[at], u);
    }
  }

  lemma MergedUnits(r: seq<Block>, k: nat, b: Block, u: int)
    requires Fits(r, k, b)
    ensures Within(Merged(r, k, b), u) ==> Within(b, u) || InRing(r, u)
    ensures Within(b, u) ==> Within(Merged(r, k, b), u)
    ensures forall i :: Where(r, k, b) <= i < After(r, k, b) && Within(r[i], u) ==> Within(Merged(r, k, b), u)
  {
    assert Within(Merged(r, k, b), u) ==> Within(b, u) || Within(r[k], u) || (JoinsRight(r, k, b) && Within(r[k + 1], u));
  }

  /** The headers after free has relinked them. */
  ghost predicate Relinked(ptr: map<nat, nat>, size: map<nat, nat>, r: seq<Block>, k: nat, b: Block, ptr': map<nat, nat>, size': map<nat, nat>) {
    && Fits(r, k, b) && Chain(ptr, size, r)
    && var next := if JoinsRight(r, k, b) then ptr[r[k + 1].a] else ptr[r[k].a];
       var n := WithRight(r, k, b).n;
       if JoinsLeft(r, k, b) then size' == size[b.a := n][r[k].a := r[k].n + n] && ptr' == ptr[b.a := next][r[k].a := next]
       else size' == size[b.a := n] && ptr' == ptr[b.a := next][r[k].a := b.a]
  }

  lemma FreedChain(ptr: map<nat, nat>, size: map<nat, nat>, r: seq<Block>, k: nat, b: Block, ptr': map<nat, nat>, size': map<nat, nat>)
    requires k < |r| && Ordered(r) && Relinked(ptr, size, r, k, b, ptr', size')
    ensures Chain(ptr', size', Freed(r, k, b))
  {
    hide Freed, Relinked, Ordered, Chain, Linked;
    var f := Freed(r, k, b);
    forall i | 0 <= i < |f| ensures Linked(ptr', size', f, i) { FreedHeader(ptr, size, r, k, b, ptr', size', i); }
    LinkedAll(ptr', size', f);
  }

  lemma FreedHeader(ptr: map<nat, nat>, size: map<nat, nat>, r: seq<Block>, k: nat, b: Block, ptr': map<nat, nat>, size': map<nat, nat>, i: nat)
    requires k < |r| && Ordered(r) && Relinked(ptr, size, r, k, b, ptr', size') && i < |Freed(r, k, b)|
    ensures Linked(ptr', size', Freed(r, k, b), i)
  {
    hide Freed, Merged, After, Relinked, Fits, Ordered, Chain, Where;
    RelinkedParts(ptr, size, r, k, b, ptr', size');
    var f, at, e := Freed(r, k, b), Where(r, k, b), After(r, k, b);
    FreedSize(r, k, b);
    MergedBetween(r, k, b, 0);
    FreedEntry(r, k, b, 0);
    FreedEntry(r, k, b, i);
    if i + 1 < |f| { FreedEntry(r, k, b, i + 1); }
    if i == at { MergedHeader(ptr, size, r, k, b, ptr', size'); }
    else { OldHeader(ptr, size, r, k, b, ptr', size', if i < at then i else i - at - 1 + e); }
  }

  lemma RelinkedParts(ptr: map<nat, nat>, size: map<nat, nat>, r: seq<Block>, k: nat, b: Block, ptr': map<nat, nat>, size': map<nat, nat>)
    requires Relinked(ptr, size, r, k, b, ptr', size')
    ensures Fits(r, k, b) && Chain(ptr, size, r)
  {
  }

  lemma MergedHeader(ptr: map<nat, nat>, size: map<nat, nat>, r: seq<Block>, k: nat, b: Block, ptr': map<nat, nat>, size': map<nat, nat>)
    requires k < |r| && Ordered(r) && Relinked(ptr, size, r, k, b, ptr', size')
    ensures var m, e := Merged(r, k, b), After(r, k, b);
      && m.a in ptr' && m.a in size' && size'[m.a] == m.n && ptr'[m.a] == if e < |r| then r[e].a else r[0].a
  {
    assert r[k].a in ptr && (k + 1 < |r| ==> r[k + 1].a in ptr);
    assert !JoinsLeft(r, k, b) ==> r[k].a != b.a;
  }

  lemma OldHeader(ptr: map<nat, nat>, size: map<nat, nat>, r: seq<Block>, k: nat, b: Block, ptr': map<nat, nat>, size': map<nat, nat>, j: nat)
    requires k < |r| && Ordered(r) && Relinked(ptr, size, r, k, b, ptr', size') && j < |r|
    requires j < Where(r, k, b) || j >= After(r, k, b)
    ensures r[j].a in ptr' && r[j].a in size' && size'[r[j].a] == r[j].n
    ensures ptr'[r[j].a] == if j == Where(r, k, b) - 1 then Merged(r, k, b).a else r[Nx(j, |r|)].a
  {
    assert r[j].a != b.a by { MergedBetween(r, k, b, j); assert j < k ==> r[j].a < r[k].a; }
    assert j != k ==> r[j].a != r[k].a;
    assert r[j].a in ptr && r[Nx(j, |r|)].a in ptr;
  }

  // ---------------------------------------------------------------- taking a block

  /** Entry k loses n units from its end, or all of it. */
  function Taken(r: seq<Block>, k: nat, n: nat): seq<Block>
    requires k < |r| && n <= r[k].n
  {
    if r[k].n == n then r[..k] + r[k + 1..] else r[k := Block(r[k].a, r[k].n - n)]
  }

  function Cut(r: seq<Block>, k: nat, n: nat): Block
    requires k < |r| && n <= r[k].n
  {
    Block(r[k].a + (r[k].n - n), n)
  }

  lemma TakenEntry(r: seq<Block>, k: nat, n: nat, i: nat)
    requires k < |r| && n <= r[k].n && i < |Taken(r, k, n)|
    ensures var f := Taken(r, k, n);
      && |f| == (if r[k].n == n then |r| - 1 else |r|)
      && f[i] == if r[k].n == n then (if i < k then r[i] else r[i + 1]) else if i == k then Block(r[k].a, r[k].n - n) else r[i]
  {
  }

  lemma TakenOrdered(r: seq<Block>, k: nat, n: nat)
    requires Ordered(r) && 0 < k < |r| && 0 < n <= r[k].n
    ensures Ordered(Taken(r, k, n)) && Taken(r, k, n)[0] == r[0]
  {
    var f := Taken(r, k, n);
    assert |f| > 0;
    hide Taken;
    TakenEntry(r, k, n, 0);
    forall i | 0 < i < |f| ensures f[i].n > 0 { TakenEntry(r, k, n, i); }
    forall i, j | 0 <= i < j < |f| ensures f[i].a + f[i].n < f[j].a {
      TakenEntry(r, k, n, i);
      TakenEntry(r, k, n, j);
    }
  }

  lemma TakenUnits(r: seq<Block>, k: nat, n: nat, u: int)
    requires Ordered(r) && 0 < k < |r| && 0 < n <= r[k].n
    ensures InRing(Taken(r, k, n), u) <==> InRing(r, u) && !Within(Cut(r, k, n), u)
  {
    var f := Taken(r, k, n);
    assert |f| == (if r[k].n == n then |r| - 1 else |r|);
    hide Taken;
    if InRing(f, u) {
      var i :| 0 <= i < |f| && Within(f[i], u);
      TakenEntry(r, k, n, i);
      var i' := if r[k].n == n && i >= k then i + 1 else i;
      assert Within(r[i'], u) && (i' < k ==> r[i'].a + r[i'].n < r[k].a) && (i' > k ==> r[k].a + r[k].n < r[i'].a);
    }
    if InRing(r, u) && !Within(Cut(r, k, n), u) {
      var i :| 0 <= i < |r| && Within(r[i], u);
      var i' := if r[k].n == n && i > k then i - 1 else i;
      TakenEntry(r, k, n, i');
      assert Within(f[i'], u);
    }
  }

  /** The headers after malloc has unlinked or shortened entry k. */
  ghost predicate Shortened(ptr: map<nat, nat>, size: map<nat, nat>, r: seq<Block>, k: nat, n: nat, ptr': map<nat, nat>, size': map<nat, nat>) {
    && 0 < k < |r| && 0 < n <= r[k].n && Chain(ptr, size, r)
    && if r[k].n == n then ptr' == ptr[r[k - 1].a := ptr[r[k].a]] && size' == size
       else ptr' == ptr && size' == size[r[k].a := r[k].n - n][Cut(r, k, n).a := n]
  }

  lemma TakenChain(ptr: map<nat, nat>, size: map<nat, nat>, r: seq<Block>, k: nat, n: nat, ptr': map<nat, nat>, size': map<nat, nat>)
    requires Ordered(r) && Shortened(ptr, size, r, k, n, ptr', size')
    ensures Chain(ptr', size', Taken(r, k, n))
  {
    var f := Taken(r, k, n);
    assert |f| == (if r[k].n == n then |r| - 1 else |r|);
    hide Taken, Shortened, Ordered, Chain;
    assert Chain(ptr', size', f) by {
      forall i | 0 <= i < |f| ensures Linked(ptr', size', f, i) {
        if r[k].n == n { TakenHeaderExact(ptr, size, r, k, n, ptr', size', i); } else { TakenHeaderPart(ptr, size, r, k, n, ptr', size', i); }
      }
      LinkedAll(ptr', size', f);
    }
  }

  ghost predicate Linked(ptr: map<nat, nat>, size: map<nat, nat>, r: seq<Block>, i: nat)
    requires i < |r|
  {
    r[i].a in ptr && r[i].a in size && size[r[i].a] == r[i].n && ptr[r[i].a] == r[Nx(i, |r|)].a
  }

  lemma LinkedAll(ptr: map<nat, nat>, size: map<nat, nat>, r: seq<Block>)
    requires forall i :: 0 <= i < |r| ==> Linked(ptr, size, r, i)
    ensures Chain(ptr, size, r)
  {
    forall i | 0 <= i < |r|
      ensures r[i].a in ptr && r[i].a in size && size[r[i].a] == r[i].n && ptr[r[i].a] == r[Nx(i, |r|)].a
    { assert Linked(ptr, size, r, i); }
  }

  lemma TakenHeaderExact(ptr: map<nat, nat>, size: map<nat, nat>, r: seq<Block>, k: nat, n: nat, ptr': map<nat, nat>, size': map<nat, nat>, i: nat)
    requires 0 < k < |r| && n <= r[k].n && Ordered(r) && Shortened(ptr, size, r, k, n, ptr', size') && i < |Taken(r, k, n)| && r[k].n == n
    ensures Linked(ptr', size', Taken(r, k, n), i)
  {
    hide Taken, Ordered, Shortened, Chain;
    TakenEntry(r, k, n, 0);
    TakenEntry(r, k, n, i);
    if i + 1 < |Taken(r, k, n)| { TakenEntry(r, k, n, i + 1); }
    TakenExact(ptr, size, r, k, n, ptr', size', if i >= k then i + 1 else i);
  }

  lemma TakenHeaderPart(ptr: map<nat, nat>, size: map<nat, nat>, r: seq<Block>, k: nat, n: nat, ptr': map<nat, nat>, size': map<nat, nat>, i: nat)
    requires 0 < k < |r| && n <= r[k].n && Ordered(r) && Shortened(ptr, size, r, k, n, ptr', size') && i < |Taken(r, k, n)| && r[k].n != n
    ensures Linked(ptr', size', Taken(r, k, n), i)
  {
    hide Taken, Ordered, Shortened, Chain;
    TakenEntry(r, k, n, 0);
    TakenEntry(r, k, n, i);
    if i + 1 < |Taken(r, k, n)| { TakenEntry(r, k, n, i + 1); }
    TakenPart(ptr, size, r, k, n, ptr', size', i);
  }

  lemma TakenExact(ptr: map<nat, nat>, size: map<nat, nat>, r: seq<Block>, k: nat, n: nat, ptr': map<nat, nat>, size': map<nat, nat>, j: nat)
    requires Ordered(r) && Shortened(ptr, size, r, k, n, ptr', size') && r[k].n == n && j < |r| && j != k
    ensures r[j].a in ptr' && r[j].a in size' && size'[r[j].a] == r[j].n && ptr'[r[j].a] == r[if j == k - 1 then Nx(k, |r|) else Nx(j, |r|)].a
  {
    CutOutside(r, k, n, j);
    hide Ordered;
    assert Linked(ptr, size, r, j) && Linked(ptr, size, r, k);
  }

  lemma TakenPart(ptr: map<nat, nat>, size: map<nat, nat>, r: seq<Block>, k: nat, n: nat, ptr': map<nat, nat>, size': map<nat, nat>, j: nat)
    requires Ordered(r) && Shortened(ptr, size, r, k, n, ptr', size') && r[k].n != n && j < |r|
    ensures r[j].a in ptr' && r[j].a in size' && size'[r[j].a] == (if j == k then r[k].n - n else r[j].n) && ptr'[r[j].a] == r[Nx(j, |r|)].a
  {
    CutOutside(r, k, n, j);
    hide Ordered;
    assert Linked(ptr, size, r, j);
  }

  lemma CutOutside(r: seq<Block>, k: nat, n: nat, i: nat)
    requires Ordered(r) && 0 < k < |r| && 0 < n <= r[k].n && i < |r|
    ensures i != k ==> r[i].a != r[k].a && r[i].a != Cut(r, k, n).a
    ensures i != k - 1 ==> r[i].a != r[k - 1].a
    ensures n < r[k].n ==> Cut(r, k, n).a != r[k].a
  {
    assert i < k ==> r[i].a + r[i].n < r[k].a;
    assert i > k ==> r[k].a + r[k].n < r[i].a;
  }
}
