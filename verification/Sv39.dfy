/** Page-table entries and address splitting of the Sv39 scheme (section 4.4 of the RISC-V
    Privileged Architecture manual), as the macros of xv6-labs-cow/riscv.h compute them.
    A 64-bit entry is an integer; a shift is a division or a multiplication by a power of two. */
module Sv39 {
  import opened Common

  const PGSIZE: nat := 4096
  const NPTE: nat := 512
  const MAXVA: nat := 0x40_0000_0000
  const MAXVPN: nat := 0x400_0000

  const PTE_V: nat := 1
  const PTE_R: nat := 2
  const PTE_W: nat := 4
  const PTE_X: nat := 8
  const PTE_U: nat := 16
  const PTE_COW: nat := 256

  type byte = b: int | 0 <= b < 256

  /** The permission bits of a valid leaf entry. */
  datatype Flags = Flags(r: bool, w: bool, x: bool, u: bool, cow: bool)

  /** A valid leaf entry: the frame it names and its permissions. */
  datatype Pte = Pte(pa: int, flags: Flags)

  /** The three levels of table pages of one page table. */
  datatype Node = Root | Mid(a: nat) | Low(a: nat, b: nat) {
    predicate InRange() {
      match this
      case Root => true
      case Mid(a) => a < 512
      case Low(a, b) => a < 512 && b < 512
    }
    function Level(): nat {
      match this case Root => 2 case Mid(_) => 1 case Low(_, _) => 0
    }
    function Parent(): Node {
      match this case Root => Root case Mid(_) => Root case Low(a, _) => Mid(a)
    }
    /** The index of this node's entry in its parent. */
    function Slot(): nat {
      match this case Root => 0 case Mid(a) => a case Low(_, b) => b
    }
    /** The node below entry i of an upper-level node. */
    function Child(i: nat): Node {
      match this case Root => Mid(i) case Mid(a) => Low(a, i) case Low(_, _) => this
    }
  }

  function PGROUNDDOWN(a: nat): nat { a / PGSIZE * PGSIZE }
  function PGROUNDUP(a: nat): nat { (a + PGSIZE - 1) / PGSIZE * PGSIZE }

  function PX(level: nat, va: nat): nat
    requires level <= 2
  {
    (va / (if level == 0 then 4096 else if level == 1 then 0x20_0000 else 0x4000_0000)) % 512
  }

  function PA2PTE(pa: nat): nat { pa / 4096 * 1024 }
  function PTE2PA(e: nat): nat { e / 1024 * 4096 }
  function PTE_FLAGS(e: nat): nat { e % 1024 }
  predicate Bit(e: nat, mask: nat) requires mask > 0 { e / mask % 2 == 1 }
  function SetBit(e: nat, mask: nat): nat requires mask > 0 { if Bit(e, mask) then e else e + mask }
  function ClearBit(e: nat, mask: nat): nat requires mask > 0 {
    if Bit(e, mask) && e >= mask then e - mask else e
  }

  function B2N(b: bool): nat { if b then 1 else 0 }

  function FlagBits(f: Flags): nat {
    2 * B2N(f.r) + 4 * B2N(f.w) + 8 * B2N(f.x) + 16 * B2N(f.u) + 256 * B2N(f.cow)
  }

  /** The entry stored for a leaf: PA2PTE(pa) | perm | PTE_V. */
  function Encode(p: Pte): (e: nat)
    requires p.pa >= 0
  {
    PA2PTE(p.pa) + FlagBits(p.flags) + 1
  }

  /** The entry stored for a lower-level table page: PA2PTE(pagetable) | PTE_V. */
  function DirPte(pa: nat): nat { PA2PTE(pa) + 1 }

  predicate Aligned(pa: int) { pa > 0 && pa % PGSIZE == 0 }

  /** Every field the kernel extracts from a stored leaf entry is the one that went in. */
  lemma EncodeFields(p: Pte)
    requires Aligned(p.pa)
    ensures PTE2PA(Encode(p)) == p.pa
    ensures PTE_FLAGS(Encode(p)) == FlagBits(p.flags) + 1
    ensures Bit(Encode(p), PTE_V)
    ensures Bit(Encode(p), PTE_R) == p.flags.r && Bit(Encode(p), PTE_W) == p.flags.w
    ensures Bit(Encode(p), PTE_X) == p.flags.x && Bit(Encode(p), PTE_U) == p.flags.u
    ensures Bit(Encode(p), PTE_COW) == p.flags.cow
  {
    var k := p.pa / 4096;
    var f := FlagBits(p.flags) + 1;
    assert Encode(p) == k * 1024 + f && f < 1024;
    BitSplit(k, f);
    FlagBitsFields(p.flags);
  }

  lemma BitSplit(k: nat, f: nat)
    requires f < 1024
    ensures (k * 1024 + f) / 1024 == k && (k * 1024 + f) % 1024 == f
    ensures Bit(k * 1024 + f, 1) == Bit(f, 1) && Bit(k * 1024 + f, 2) == Bit(f, 2)
    ensures Bit(k * 1024 + f, 4) == Bit(f, 4) && Bit(k * 1024 + f, 8) == Bit(f, 8)
    ensures Bit(k * 1024 + f, 16) == Bit(f, 16) && Bit(k * 1024 + f, 256) == Bit(f, 256)
  {
    LowBit(k * 512, f, 1, k * 1024);
    LowBit(k * 256, f, 2, k * 512);
    LowBit(k * 128, f, 4, k * 256);
    LowBit(k * 64, f, 8, k * 128);
    LowBit(k * 32, f, 16, k * 64);
    LowBit(k * 2, f, 256, k * 4);
  }

  /** Adding an even multiple of a mask leaves that bit alone. */
  lemma LowBit(h: nat, f: nat, mask: nat, q: nat)
    requires mask > 0 && q == 2 * h
    ensures (q * mask + f) / mask == q + f / mask
    ensures Bit(q * mask + f, mask) == Bit(f, mask)
  {
    var d, r := f / mask, f % mask;
    assert f == d * mask + r;
    assert q * mask + f == (q + d) * mask + r;
    QuotientOf(q * mask + f, mask, q + d, r);
  }

  lemma FlagBitsFields(f: Flags)
    ensures var e := FlagBits(f) + 1;
            && e < 1024
            && Bit(e, PTE_V) && Bit(e, PTE_R) == f.r && Bit(e, PTE_W) == f.w
            && Bit(e, PTE_X) == f.x && Bit(e, PTE_U) == f.u && Bit(e, PTE_COW) == f.cow
  {
  }

  /** A table entry is valid and carries none of R, W, X: freewalk descends into exactly these. */
  lemma DirFields(pa: nat)
    requires Aligned(pa)
    ensures PTE2PA(DirPte(pa)) == pa && Bit(DirPte(pa), PTE_V)
    ensures !Bit(DirPte(pa), PTE_R) && !Bit(DirPte(pa), PTE_W) && !Bit(DirPte(pa), PTE_X)
  {
    BitSplit(pa / 4096, 1);
  }

  /** The flag arithmetic of uvmcopy, (flags & ~PTE_W) | PTE_COW, on a stored entry. */
  lemma ShareBits(p: Pte)
    requires Aligned(p.pa)
    ensures var fl := SetBit(ClearBit(PTE_FLAGS(Encode(p)), PTE_W), PTE_COW);
            PA2PTE(p.pa) + fl == Encode(p.(flags := p.flags.(w := false, cow := true)))
  {
    EncodeFields(p);
    FlagBitsFields(p.flags);
    FlagBitsFields(p.flags.(w := false));
  }

  /** The flag arithmetic of walkcowaddr, (flags & ~PTE_COW) | PTE_W, on a stored entry. */
  lemma SplitBits(p: Pte)
    requires Aligned(p.pa)
    ensures var fl := SetBit(ClearBit(PTE_FLAGS(Encode(p)), PTE_COW), PTE_W);
            fl == FlagBits(p.flags.(cow := false, w := true)) + 1
  {
    EncodeFields(p);
    FlagBitsFields(p.flags);
    FlagBitsFields(p.flags.(cow := false));
  }

  function Vpn(a: nat, b: nat, c: nat): nat { (a * 512 + b) * 512 + c }

  /** The level-0 node that holds the entry of page v, and the entry's index there. */
  function LowOf(v: nat): Node { Low(v / 0x4_0000, v / 512 % 512) }
  function LowSlot(v: nat): nat { v % 512 }

  /** The node visited by walk when it looks at the given level for page v. */
  function NodeAt(level: nat, v: nat): Node
    requires level <= 2
  {
    if level == 2 then Root else if level == 1 then Mid(v / 0x4_0000) else LowOf(v)
  }

  /** walk takes page va/PGSIZE to its own slot: the indices determine the page and conversely. */
  lemma PathOfPage(va: nat)
    requires va < MAXVA
    ensures var v := va / PGSIZE;
      && v < MAXVPN
      && PX(2, va) == v / 0x4_0000 && PX(1, va) == v / 512 % 512 && PX(0, va) == LowSlot(v)
      && Vpn(PX(2, va), PX(1, va), PX(0, va)) == v
      && NodeAt(2, v).Child(PX(2, va)) == NodeAt(1, v)
      && NodeAt(1, v).Child(PX(1, va)) == NodeAt(0, v)
  {
  }

  lemma VpnSlots(a: nat, b: nat, c: nat)
    requires a < 512 && b < 512 && c < 512
    ensures LowOf(Vpn(a, b, c)) == Low(a, b) && LowSlot(Vpn(a, b, c)) == c
  {
  }
}
