/** User memory as a program sees it: bytes by virtual address. Stores and loads are stated
    address by address, without frames or page tables. */
module UserMemory {
  import opened Sv39
  import opened KernelState

  type Mem = map<int, Page>

  /** va may be accessed from user space. */
  predicate UserPage(m: Mem, va: nat) {
    va < MAXVA && va / PGSIZE in m && m[va / PGSIZE].u
  }

  ghost predicate WholePages(m: Mem) {
    forall v :: v in m ==> 0 <= v < MAXVPN && |m[v].data| == PGSIZE
  }

  function ByteAt(m: Mem, va: nat): byte {
    if va / PGSIZE in m && va % PGSIZE < |m[va / PGSIZE].data| then m[va / PGSIZE].data[va % PGSIZE] else 0
  }

  /** Page v after bs was stored at va. */
  function StorePage(p: Page, v: int, va: int, bs: seq<byte>): Page {
    p.(data := seq(|p.data|, o requires 0 <= o < |p.data| =>
      if va <= v * PGSIZE + o < va + |bs| then bs[v * PGSIZE + o - va] else p.data[o]))
  }

  /** Address va+i holds bs[i]; every other address keeps its byte. */
  function StoreBytes(m: Mem, va: int, bs: seq<byte>): Mem {
    map v | v in m :: StorePage(m[v], v, va, bs)
  }

  function LoadBytes(m: Mem, va: nat, n: nat): seq<byte> {
    seq<byte>(n, i requires 0 <= i < n => ByteAt(m, va + i))
  }

  function Splice(d: seq<byte>, off: nat, bs: seq<byte>): seq<byte>
    requires off + |bs| <= |d|
  {
    d[..off] + bs + d[off + |bs|..]
  }

  lemma StoreNothing(m: Mem, va: int)
    ensures StoreBytes(m, va, []) == m
  {
    forall v | v in m ensures StorePage(m[v], v, va, []) == m[v] {
      assert StorePage(m[v], v, va, []).data == m[v].data;
    }
  }

  /** Storing a then b right after it is storing a + b. */
  lemma StoreConcat(m: Mem, va: int, a: seq<byte>, b: seq<byte>)
    ensures StoreBytes(StoreBytes(m, va, a), va + |a|, b) == StoreBytes(m, va, a + b)
  {
    var l, r := StoreBytes(StoreBytes(m, va, a), va + |a|, b), StoreBytes(m, va, a + b);
    forall v | v in m ensures l[v] == r[v] {
      assert l[v].data == r[v].data;
    }
  }

  /** A splice inside one page is a store at its address. */
  lemma StoreInPage(m: Mem, va: nat, bs: seq<byte>)
    requires WholePages(m) && va / PGSIZE in m && va % PGSIZE + |bs| <= PGSIZE
    ensures var v := va / PGSIZE;
      m[v := m[v].(data := Splice(m[v].data, va % PGSIZE, bs))] == StoreBytes(m, va, bs)
  {
    var v := va / PGSIZE;
    var l, r := m[v := m[v].(data := Splice(m[v].data, va % PGSIZE, bs))], StoreBytes(m, va, bs);
    forall w | w in m ensures l[w] == r[w] {
      assert l[w].data == r[w].data;
    }
    assert l.Keys == m.Keys;
  }

  /** Loads after a store: the new bytes in the range, the old ones elsewhere. */
  lemma LoadAfterStore(m: Mem, va: nat, bs: seq<byte>, x: nat)
    requires WholePages(m) && x / PGSIZE in m
    ensures ByteAt(StoreBytes(m, va, bs), x) == if va <= x < va + |bs| then bs[x - va] else ByteAt(m, x)
  {
    assert x / PGSIZE * PGSIZE + x % PGSIZE == x;
  }
}
