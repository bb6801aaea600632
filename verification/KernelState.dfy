/** Physical frames, their reference counts, and the page tables built out of them
    (xv6-labs-cow/kalloc.c, vm.c). A State pairs the raw memory with the flat map it stands for;
    Inv says how they agree, and each lemma below shows that one kernel action keeps Inv. */
module KernelState {
  import opened Common
  import opened Sv39

  /** A frame holds bytes, or the 512 entries of a table page. */
  datatype Frame = Bytes(data: seq<byte>) | Ptes(entries: seq<nat>)

  /** The flat view of one page table: its table pages, and its leaf entries by page number. */
  datatype Space = Space(dirs: map<Node, int>, leaves: map<int, Pte>)

  /** What a managed frame is used for. */
  datatype Role = Free | Data | Table(root: int, node: Node)

  type Spaces = map<int, Space>

  /** spaces is keyed by the address of the root table page; held counts the references
      that running kernel code (not a page table) owns. */
  datatype State = State(
    frames: map<int, Frame>, free: seq<int>, ref: map<int, int>,
    spaces: Spaces, role: map<int, Role>, held: map<int, int>)

  /** What a user program can observe of one mapped page. */
  datatype Page = Page(data: seq<byte>, r: bool, x: bool, u: bool)
  type View = map<int, map<int, Page>>

  predicate HasDir(ss: Spaces, r: int, n: Node) { r in ss && n in ss[r].dirs }
  function DirAt(ss: Spaces, r: int, n: Node): int requires HasDir(ss, r, n) { ss[r].dirs[n] }
  /** Page v has a level-0 table page. */
  predicate HasSlot(ss: Spaces, r: int, v: nat) { HasDir(ss, r, LowOf(v)) }
  predicate HasLeaf(ss: Spaces, r: int, v: int) { r in ss && v in ss[r].leaves }
  function LeafAt(ss: Spaces, r: int, v: int): Pte requires HasLeaf(ss, r, v) { ss[r].leaves[v] }

  /** The user entries that name frame pa. */
  ghost function Refs(ss: Spaces, pa: int): set<(int, int)> {
    set r, v | r in ss && v in ss[r].leaves && ss[r].leaves[v].pa == pa :: (r, v)
  }

  function Fill(b: byte): seq<byte> { seq(PGSIZE, _ => b) }
  function Zeros(): seq<nat> { seq(NPTE, _ => 0) }

  /** The entry that node n must hold at index i. */
  function Entry(sp: Space, n: Node, i: nat): nat {
    match n
    case Low(a, b) =>
      var v := Vpn(a, b, i);
      if v in sp.leaves && sp.leaves[v].pa >= 0 then Encode(sp.leaves[v]) else 0
    case _ =>
      var c := n.Child(i);
      if c in sp.dirs && sp.dirs[c] >= 0 then DirPte(sp.dirs[c]) else 0
  }

  predicate NoDup(q: seq<int>) { forall i, j :: 0 <= i < j < |q| ==> q[i] != q[j] }

  ghost predicate Shape(s: State) {
    && s.ref.Keys == s.frames.Keys && s.role.Keys == s.frames.Keys && s.held.Keys == s.frames.Keys
    && forall pa :: pa in s.frames ==> Aligned(pa) && 0 <= s.ref[pa] < 256
  }

  /** A count of 0, a place on the free list (exactly one) and role Free coincide. */
  ghost predicate FreeOk(s: State)
    requires Shape(s)
  {
    && NoDup(s.free)
    && (forall x :: x in s.free ==> x in s.frames)
    && forall pa :: pa in s.frames ==>
         && (pa in s.free <==> s.ref[pa] == 0)
         && (s.role[pa].Free? <==> s.ref[pa] == 0)
         && (s.role[pa].Free? ==> s.held[pa] == 0)
  }

  ghost predicate DirOk(s: State, r: int, n: Node)
    requires Shape(s) && HasDir(s.spaces, r, n)
  {
    var pa := DirAt(s.spaces, r, n);
    && n.InRange()
    && pa in s.frames && s.role[pa] == Table(r, n) && s.ref[pa] == 1 && s.held[pa] == 0
  }

  /** Every table page belongs to one node of one table, and has count 1. */
  ghost predicate DirsOk(s: State)
    requires Shape(s)
  {
    && (forall r :: r in s.spaces ==> HasDir(s.spaces, r, Root) && DirAt(s.spaces, r, Root) == r)
    && (forall r, n :: HasDir(s.spaces, r, n) ==> DirOk(s, r, n))
    && (forall r, a, b :: HasDir(s.spaces, r, Low(a, b)) ==> HasDir(s.spaces, r, Mid(a)))
    && forall pa :: pa in s.frames && s.role[pa].Table? ==>
         HasDir(s.spaces, s.role[pa].root, s.role[pa].node)
         && DirAt(s.spaces, s.role[pa].root, s.role[pa].node) == pa
  }

  ghost predicate NodeOk(s: State, r: int, n: Node)
    requires Shape(s) && HasDir(s.spaces, r, n) && DirAt(s.spaces, r, n) in s.frames
  {
    var f := s.frames[DirAt(s.spaces, r, n)];
    f.Ptes? && |f.entries| == NPTE
    && forall i :: 0 <= i < NPTE ==> f.entries[i] == Entry(s.spaces[r], n, i)
  }

  /** Raw table pages hold what the flat map says, except for the pages in ex. */
  ghost predicate NodesOk(s: State, ex: set<int>)
    requires Shape(s) && DirsOk(s)
  {
    forall r, n :: HasDir(s.spaces, r, n) && DirAt(s.spaces, r, n) !in ex ==> NodeOk(s, r, n)
  }

  ghost predicate LeafOk(s: State, r: int, v: int)
    requires Shape(s) && HasLeaf(s.spaces, r, v)
  {
    var p := LeafAt(s.spaces, r, v);
    && 0 <= v < MAXVPN && HasDir(s.spaces, r, LowOf(v))
    && p.pa in s.frames && s.role[p.pa].Data?
    && s.frames[p.pa].Bytes? && |s.frames[p.pa].data| == PGSIZE
    && p.flags.w != p.flags.cow
  }

  ghost predicate LeavesOk(s: State)
    requires Shape(s)
  {
    forall r, v :: HasLeaf(s.spaces, r, v) ==> LeafOk(s, r, v)
  }

  /** A writable frame has one user entry; a table names a frame at most once. */
  ghost predicate SharingOk(ss: Spaces) {
    && (forall r, v :: HasLeaf(ss, r, v) && LeafAt(ss, r, v).flags.w ==>
          Refs(ss, LeafAt(ss, r, v).pa) == {(r, v)})
    && forall r, v1, v2 ::
         HasLeaf(ss, r, v1) && HasLeaf(ss, r, v2) && LeafAt(ss, r, v1).pa == LeafAt(ss, r, v2).pa
         ==> v1 == v2
  }

  /** The count of a data frame is the number of entries naming it plus the kernel's own references. */
  ghost predicate CountsOk(s: State)
    requires Shape(s)
  {
    forall pa :: pa in s.frames && s.role[pa].Data? ==>
      s.ref[pa] == |Refs(s.spaces, pa)| + s.held[pa]
  }

  ghost predicate Inv(s: State, ex: set<int>) {
    Shape(s) && FreeOk(s) && DirsOk(s) && NodesOk(s, ex)
    && LeavesOk(s) && SharingOk(s.spaces) && CountsOk(s)
  }

  // ---------------------------------------------------------------- observation

  function PageOf(frames: map<int, Frame>, p: Pte): Page {
    Page(if p.pa in frames && frames[p.pa].Bytes? then frames[p.pa].data else [],
         p.flags.r, p.flags.x, p.flags.u)
  }

  function SpaceView(frames: map<int, Frame>, sp: Space): map<int, Page> {
    map v | v in sp.leaves :: PageOf(frames, sp.leaves[v])
  }

  /** The bytes and permissions each page table shows, by root and page number. */
  function ViewOf(s: State): View {
    map r | r in s.spaces :: SpaceView(s.frames, s.spaces[r])
  }

  // ---------------------------------------------------------------- reference sets

  function PutLeaf(ss: Spaces, r: int, v: int, p: Pte): Spaces
    requires r in ss
  {
    ss[r := ss[r].(leaves := ss[r].leaves[v := p])]
  }

  function CutLeaf(ss: Spaces, r: int, v: int): Spaces
    requires r in ss
  {
    ss[r := ss[r].(leaves := ss[r].leaves - {v})]
  }

  function PutDir(ss: Spaces, r: int, n: Node, pa: int): Spaces
    requires r in ss
  {
    ss[r := ss[r].(dirs := ss[r].dirs[n := pa])]
  }

  lemma RefsPut(ss: Spaces, r: int, v: int, p: Pte, pa: int)
    requires r in ss && v !in ss[r].leaves
    ensures Refs(PutLeaf(ss, r, v, p), pa) == Refs(ss, pa) + (if pa == p.pa then {(r, v)} else {})
    ensures (r, v) !in Refs(ss, pa)
  {
    var t := PutLeaf(ss, r, v, p);
    forall r0, v0
      ensures (r0, v0) in Refs(t, pa) <==> (r0, v0) in Refs(ss, pa) || (pa == p.pa && r0 == r && v0 == v)
    {
    }
  }

  lemma RefsCut(ss: Spaces, r: int, v: int, pa: int)
    requires HasLeaf(ss, r, v)
    ensures Refs(CutLeaf(ss, r, v), pa) == Refs(ss, pa) - {(r, v)}
    ensures (r, v) in Refs(ss, pa) <==> LeafAt(ss, r, v).pa == pa
  {
    var t := CutLeaf(ss, r, v);
    forall r0, v0
      ensures (r0, v0) in Refs(t, pa) <==> (r0, v0) in Refs(ss, pa) && (r0, v0) != (r, v)
    {
    }
  }

  /** Changing flags, or table pages, leaves the reference sets alone. */
  lemma RefsSame(ss: Spaces, tt: Spaces, pa: int)
    requires forall r, v :: HasLeaf(ss, r, v) <==> HasLeaf(tt, r, v)
    requires forall r, v :: HasLeaf(ss, r, v) ==> LeafAt(ss, r, v).pa == LeafAt(tt, r, v).pa
    ensures Refs(ss, pa) == Refs(tt, pa)
  {
    forall r, v ensures (r, v) in Refs(ss, pa) <==> (r, v) in Refs(tt, pa) {
      assert HasLeaf(ss, r, v) <==> HasLeaf(tt, r, v);
    }
  }

  lemma NoRefs(s: State, pa: int)
    requires Shape(s) && LeavesOk(s) && pa in s.frames && !s.role[pa].Data?
    ensures Refs(s.spaces, pa) == {}
  {
    forall r, v ensures (r, v) !in Refs(s.spaces, pa) {
      if HasLeaf(s.spaces, r, v) { assert LeafOk(s, r, v); }
    }
  }

  lemma RefOf(ss: Spaces, r: int, v: int)
    requires HasLeaf(ss, r, v)
    ensures (r, v) in Refs(ss, LeafAt(ss, r, v).pa)
  {
  }

  /** A page occurs at most once per table, so its entries number at most the tables. */
  lemma {:induction false} RefsBounded(ss: Spaces, pa: int)
    requires SharingOk(ss)
    ensures |Refs(ss, pa)| <= |ss|
  {
    var roots := set x | x in Refs(ss, pa) :: x.0;
    assert roots <= ss.Keys;
    SubsetSize(roots, ss.Keys);
    forall x, y | x in Refs(ss, pa) && y in Refs(ss, pa) && x.0 == y.0 ensures x == y {
      assert HasLeaf(ss, x.0, x.1) && HasLeaf(ss, y.0, y.1);
    }
    CardFirsts(Refs(ss, pa), roots);
  }

  lemma {:induction false} CardFirsts(q: set<(int, int)>, firsts: set<int>)
    requires forall x :: x in q ==> x.0 in firsts
    requires forall x, y :: x in q && y in q && x.0 == y.0 ==> x == y
    ensures |q| <= |firsts|
  {
    if q != {} {
      var x :| x in q;
      CardFirsts(q - {x}, firsts - {x.0});
    }
  }

  // ---------------------------------------------------------------- allocator actions

  /** t differs from s only on frame pa, which is neither a table page nor named by an entry,
      or only in the counts of pa. */
  ghost predicate SameElsewhere(s: State, t: State, pa: int) {
    && s.spaces == t.spaces && pa in s.frames
    && t.frames.Keys == s.frames.Keys && t.ref.Keys == s.ref.Keys
    && t.role.Keys == s.role.Keys && t.held.Keys == s.held.Keys
    && forall q :: q in s.frames && q != pa ==>
         && t.frames[q] == s.frames[q] && (q in s.ref ==> t.ref[q] == s.ref[q])
         && (q in s.role ==> t.role[q] == s.role[q]) && (q in s.held ==> t.held[q] == s.held[q])
  }

  lemma ElsewhereKeeps(s: State, t: State, pa: int, ex: set<int>)
    requires Inv(s, ex) && SameElsewhere(s, t, pa) && Shape(t)
    requires !s.role[pa].Table? && !t.role[pa].Table?
    requires Refs(s.spaces, pa) == {} || (t.frames[pa] == s.frames[pa] && t.role[pa] == s.role[pa])
    ensures DirsOk(t) && NodesOk(t, ex) && LeavesOk(t) && ViewOf(t) == ViewOf(s)
  {
    hide FreeOk, SharingOk, CountsOk, ViewOf;
    forall r, n | HasDir(t.spaces, r, n) ensures DirOk(t, r, n) { assert DirOk(s, r, n); }
    forall r, n | HasDir(t.spaces, r, n) && DirAt(t.spaces, r, n) !in ex ensures NodeOk(t, r, n) {
      assert DirOk(s, r, n) && NodeOk(s, r, n);
    }
    forall r, v | HasLeaf(t.spaces, r, v)
      ensures LeafOk(t, r, v) && PageOf(s.frames, LeafAt(s.spaces, r, v)) == PageOf(t.frames, LeafAt(t.spaces, r, v))
    {
      assert LeafOk(s, r, v);
      RefOf(s.spaces, r, v);
    }
    SameView(s, t);
  }

  lemma SameView(s: State, t: State)
    requires s.spaces == t.spaces
    requires forall r, v :: HasLeaf(s.spaces, r, v) ==>
      PageOf(s.frames, LeafAt(s.spaces, r, v)) == PageOf(t.frames, LeafAt(t.spaces, r, v))
    ensures ViewOf(s) == ViewOf(t)
  {
    forall r | r in s.spaces
      ensures SpaceView(s.frames, s.spaces[r]) == SpaceView(t.frames, t.spaces[r])
    {
      forall v | v in s.spaces[r].leaves
        ensures PageOf(s.frames, s.spaces[r].leaves[v]) == PageOf(t.frames, t.spaces[r].leaves[v])
      {
        assert HasLeaf(s.spaces, r, v);
      }
    }
  }

  function Alloc(s: State): State
    requires |s.free| > 0
  {
    var pa := s.free[0];
    s.(frames := s.frames[pa := Bytes(Fill(5))], free := s.free[1..], ref := s.ref[pa := 1],
       role := s.role[pa := Data], held := s.held[pa := 1])
  }

  lemma AllocKeeps(s: State, ex: set<int>)
    requires Inv(s, ex) && |s.free| > 0
    ensures s.free[0] in s.frames && s.ref[s.free[0]] == 0
    ensures Inv(Alloc(s), ex) && ViewOf(Alloc(s)) == ViewOf(s)
    ensures s.role[s.free[0]].Free? && Fresh(Alloc(s), s.free[0])
  {
    hide DirsOk, NodesOk, SharingOk, ViewOf;
    var pa, t := s.free[0], Alloc(s);
    assert pa in s.free;
    NoRefs(s, pa);
    assert Shape(t);
    ElsewhereKeeps(s, t, pa, ex);
    assert s.free == [pa] + s.free[1..];
    assert FreeOk(t);
    assert CountsOk(t);
  }

  /** kfree: drop one reference; the last one returns the frame to the list. */
  function Drop(s: State, pa: int): State
    requires pa in s.ref && pa in s.held
  {
    var s1 := s.(ref := s.ref[pa := (s.ref[pa] + 255) % 256], held := s.held[pa := s.held[pa] - 1]);
    if s1.ref[pa] != 0 then s1 else
    s1.(frames := s.frames[pa := Bytes(Fill(1))], free := [pa] + s.free, role := s.role[pa := Free])
  }

  lemma DropKeeps(s: State, pa: int, ex: set<int>)
    requires Inv(s, ex) && pa in s.frames && s.role[pa].Data? && s.held[pa] >= 1
    ensures s.ref[pa] >= 1
    ensures Inv(Drop(s, pa), ex) && ViewOf(Drop(s, pa)) == ViewOf(s)
  {
    hide DirsOk, NodesOk, SharingOk, ViewOf, LeavesOk;
    var t := Drop(s, pa);
    assert s.ref[pa] == |Refs(s.spaces, pa)| + s.held[pa];
    assert t.ref[pa] == s.ref[pa] - 1;
    assert Shape(t);
    if t.ref[pa] == 0 {
      assert Refs(s.spaces, pa) == {};
      assert pa !in s.free;
      assert forall x :: x in t.free <==> x == pa || x in s.free;
    }
    assert FreeOk(t);
    ElsewhereKeeps(s, t, pa, ex);
    assert CountsOk(t);
  }

  function Inc(s: State, pa: int): State
    requires pa in s.ref && pa in s.held
  {
    s.(ref := s.ref[pa := (s.ref[pa] + 1) % 256], held := s.held[pa := s.held[pa] + 1])
  }

  lemma IncKeeps(s: State, pa: int, ex: set<int>)
    requires Inv(s, ex) && pa in s.frames && s.role[pa].Data? && s.ref[pa] < 255
    ensures Inv(Inc(s, pa), ex) && ViewOf(Inc(s, pa)) == ViewOf(s)
  {
    hide DirsOk, NodesOk, SharingOk, ViewOf, LeavesOk;
    var t := Inc(s, pa);
    assert s.ref[pa] != 0;
    assert t.ref[pa] == s.ref[pa] + 1;
    assert Shape(t);
    ElsewhereKeeps(s, t, pa, ex);
    assert FreeOk(t);
    assert CountsOk(t);
  }

  // ---------------------------------------------------------------- leaf entries

  /** Store e at index i of table page pg. */
  function Poke(frames: map<int, Frame>, pg: int, i: nat, e: nat): map<int, Frame>
    requires pg in frames && frames[pg].Ptes? && i < |frames[pg].entries|
  {
    frames[pg := Ptes(frames[pg].entries[i := e])]
  }

  lemma EntryElsewhere(sp: Space, tp: Space, n: Node, i: nat, v: nat)
    requires sp.dirs == tp.dirs && v < MAXVPN && n.InRange() && i < NPTE
    requires forall w :: w != v ==> (w in sp.leaves <==> w in tp.leaves)
    requires forall w :: w != v && w in sp.leaves ==> sp.leaves[w] == tp.leaves[w]
    requires n != LowOf(v) || i != LowSlot(v)
    ensures Entry(sp, n, i) == Entry(tp, n, i)
  {
    match n
    case Low(a, b) => VpnSlots(a, b, i);
    case _ =>
  }

  /** The entry under LowOf(v), LowSlot(v) is the one of page v. */
  lemma EntryHere(sp: Space, v: nat)
    requires v < MAXVPN
    ensures LowOf(v).InRange() && LowSlot(v) < NPTE
    ensures Entry(sp, LowOf(v), LowSlot(v)) ==
      if v in sp.leaves && sp.leaves[v].pa >= 0 then Encode(sp.leaves[v]) else 0
  {
    PathOfPage(v * PGSIZE);
  }

  ghost predicate LeafDiff(sp: Space, tp: Space, v: int) {
    && sp.dirs == tp.dirs
    && (forall w :: w != v ==> (w in sp.leaves <==> w in tp.leaves))
    && forall w :: w != v && w in sp.leaves ==> sp.leaves[w] == tp.leaves[w]
  }

  /** t is s with the leaf of page v of table r changed, and at most the slot of v rewritten. */
  ghost predicate LeafStep(s: State, t: State, r: int, v: nat) {
    && v < MAXVPN && HasDir(s.spaces, r, LowOf(v))
    && t.free == s.free && t.ref == s.ref && t.role == s.role && t.held.Keys == s.held.Keys
    && (forall q :: q in s.held && q in s.role && !s.role[q].Data? ==> t.held[q] == s.held[q])
    && t.spaces.Keys == s.spaces.Keys
    && (forall q :: q in s.spaces && q != r ==> t.spaces[q] == s.spaces[q])
    && LeafDiff(s.spaces[r], t.spaces[r], v)
    && t.frames.Keys == s.frames.Keys
    && forall q :: q in s.frames && q != DirAt(s.spaces, r, LowOf(v)) ==> t.frames[q] == s.frames[q]
  }

  lemma LeafStepDirs(s: State, t: State, r: int, v: nat)
    requires Shape(s) && FreeOk(s) && DirsOk(s) && LeafStep(s, t, r, v)
    ensures Shape(t) && FreeOk(t) && DirsOk(t)
  {
    forall q, n | HasDir(t.spaces, q, n) ensures DirOk(t, q, n) {
      assert HasDir(s.spaces, q, n) && DirOk(s, q, n);
    }
    forall q, a, b | HasDir(t.spaces, q, Low(a, b)) ensures HasDir(t.spaces, q, Mid(a)) {
      assert HasDir(s.spaces, q, Low(a, b));
      assert HasDir(s.spaces, q, Mid(a));
    }
    forall pa | pa in t.frames && t.role[pa].Table?
      ensures HasDir(t.spaces, t.role[pa].root, t.role[pa].node)
        && DirAt(t.spaces, t.role[pa].root, t.role[pa].node) == pa
    {
      assert HasDir(s.spaces, s.role[pa].root, s.role[pa].node);
    }
  }

  lemma NodeAfter(sp: Space, tp: Space, n: Node, v: nat, was: seq<nat>, now: seq<nat>)
    requires LeafDiff(sp, tp, v) && n.InRange() && v < MAXVPN && |was| == |now| == NPTE
    requires forall i :: 0 <= i < NPTE && (n != LowOf(v) || i != LowSlot(v)) ==>
      was[i] == Entry(sp, n, i) && now[i] == was[i]
    requires n == LowOf(v) ==> now[LowSlot(v)] == Entry(tp, n, LowSlot(v))
    ensures forall i :: 0 <= i < NPTE ==> now[i] == Entry(tp, n, i)
  {
    forall i | 0 <= i < NPTE && (n != LowOf(v) || i != LowSlot(v)) ensures now[i] == Entry(tp, n, i) {
      EntryElsewhere(sp, tp, n, i, v);
    }
  }

  ghost predicate SlotMatches(s: State, t: State, r: int, v: nat)
    requires Shape(t) && HasDir(s.spaces, r, LowOf(v)) && r in t.spaces
  {
    var low := DirAt(s.spaces, r, LowOf(v));
    && low in s.frames && low in t.frames && s.frames[low].Ptes? && t.frames[low].Ptes?
    && |s.frames[low].entries| == |t.frames[low].entries| == NPTE
    && (forall i :: 0 <= i < NPTE && i != LowSlot(v) ==>
          s.frames[low].entries[i] == Entry(s.spaces[r], LowOf(v), i) == t.frames[low].entries[i])
    && t.frames[low].entries[LowSlot(v)] == Entry(t.spaces[r], LowOf(v), LowSlot(v))
  }

  /** With the slot of page v rewritten to match (or its table page excused), all table pages agree. */
  lemma LeafStepNodes(s: State, t: State, r: int, v: nat, ex: set<int>, ex': set<int>)
    requires Shape(s) && DirsOk(s) && NodesOk(s, ex) && LeafStep(s, t, r, v) && Shape(t) && DirsOk(t)
    requires ex <= {DirAt(s.spaces, r, LowOf(v))}
    requires ex' == {DirAt(s.spaces, r, LowOf(v))} || SlotMatches(s, t, r, v)
    ensures NodesOk(t, ex')
  {
    var low := DirAt(s.spaces, r, LowOf(v));
    assert DirOk(s, r, LowOf(v));
    forall q, n | HasDir(t.spaces, q, n) && DirAt(t.spaces, q, n) !in ex' ensures NodeOk(t, q, n) {
      assert HasDir(s.spaces, q, n) && DirOk(s, q, n);
      var pg := DirAt(t.spaces, q, n);
      if pg != low { assert NodeOk(s, q, n); }
      if q == r {
        NodeAfter(s.spaces[r], t.spaces[r], n, v, s.frames[pg].entries, t.frames[pg].entries);
      }
    }
  }

  lemma LeafStepLeaves(s: State, t: State, r: int, v: nat)
    requires Shape(s) && DirsOk(s) && LeavesOk(s) && LeafStep(s, t, r, v) && Shape(t)
    requires HasLeaf(t.spaces, r, v) ==> LeafOk(t, r, v)
    ensures LeavesOk(t)
  {
    assert DirOk(s, r, LowOf(v));
    forall q, w | HasLeaf(t.spaces, q, w) ensures LeafOk(t, q, w) {
      if (q, w) != (r, v) { assert HasLeaf(s.spaces, q, w) && LeafOk(s, q, w); }
    }
  }

  /** Only page v of table r can look different. */
  lemma LeafStepView(s: State, t: State, r: int, v: nat)
    requires Shape(s) && DirsOk(s) && LeavesOk(s) && LeafStep(s, t, r, v) && Shape(t)
    ensures HasLeaf(t.spaces, r, v) ==>
      ViewOf(t) == ViewOf(s)[r := ViewOf(s)[r][v := PageOf(t.frames, LeafAt(t.spaces, r, v))]]
    ensures !HasLeaf(t.spaces, r, v) ==> ViewOf(t) == ViewOf(s)[r := ViewOf(s)[r] - {v}]
  {
    assert DirOk(s, r, LowOf(v));
    forall q, w | HasLeaf(s.spaces, q, w)
      ensures PageOf(t.frames, LeafAt(s.spaces, q, w)) == PageOf(s.frames, LeafAt(s.spaces, q, w))
    {
      assert LeafOk(s, q, w);
    }
    LeafDiffView(s, t, r, v);
  }

  lemma LeafDiffView(s: State, t: State, r: int, v: int)
    requires r in s.spaces && t.spaces.Keys == s.spaces.Keys && LeafDiff(s.spaces[r], t.spaces[r], v)
    requires forall q :: q in s.spaces && q != r ==> t.spaces[q] == s.spaces[q]
    requires forall q, w :: HasLeaf(s.spaces, q, w) ==>
      PageOf(t.frames, LeafAt(s.spaces, q, w)) == PageOf(s.frames, LeafAt(s.spaces, q, w))
    ensures HasLeaf(t.spaces, r, v) ==>
      ViewOf(t) == ViewOf(s)[r := ViewOf(s)[r][v := PageOf(t.frames, LeafAt(t.spaces, r, v))]]
    ensures !HasLeaf(t.spaces, r, v) ==> ViewOf(t) == ViewOf(s)[r := ViewOf(s)[r] - {v}]
  {
    hide PageOf;
    forall q | q in s.spaces && q != r ensures SpaceView(t.frames, t.spaces[q]) == SpaceView(s.frames, s.spaces[q]) {
      forall w | w in s.spaces[q].leaves
        ensures PageOf(t.frames, s.spaces[q].leaves[w]) == PageOf(s.frames, s.spaces[q].leaves[w])
      { assert HasLeaf(s.spaces, q, w); }
    }
    var sv, tv := SpaceView(s.frames, s.spaces[r]), SpaceView(t.frames, t.spaces[r]);
    forall w | w != v ensures (w in sv <==> w in tv) && (w in sv ==> tv[w] == sv[w]) {
      assert w in s.spaces[r].leaves <==> w in t.spaces[r].leaves;
      if w in sv { assert HasLeaf(s.spaces, r, w); }
    }
    if HasLeaf(t.spaces, r, v) {
      assert tv[v] == PageOf(t.frames, LeafAt(t.spaces, r, v));
      assert tv == sv[v := tv[v]];
    } else {
      assert tv == sv - {v};
    }
  }

  /** Page p may be entered in table r: a writable page has no other entry, a shared one has
      only read-only entries, none of them in r. */
  ghost predicate Mappable(ss: Spaces, r: int, p: Pte) {
    && p.flags.w != p.flags.cow
    && (p.flags.w ==> Refs(ss, p.pa) == {})
    && forall q, v :: HasLeaf(ss, q, v) && LeafAt(ss, q, v).pa == p.pa ==> !LeafAt(ss, q, v).flags.w && q != r
  }

  ghost predicate DataFrame(s: State, pa: int) {
    pa in s.frames && pa in s.role && s.role[pa].Data? && s.frames[pa].Bytes? && |s.frames[pa].data| == PGSIZE
  }

  /** *pte = PA2PTE(pa) | perm | PTE_V on an empty slot: the kernel's reference becomes the entry's. */
  ghost function MapLeaf(s: State, r: int, v: nat, p: Pte): State
    requires Inv(s, {}) && HasDir(s.spaces, r, LowOf(v)) && v < MAXVPN && p.pa in s.held && p.pa >= 0
  {
    var low := DirAt(s.spaces, r, LowOf(v));
    assert DirOk(s, r, LowOf(v)) && NodeOk(s, r, LowOf(v));
    EntryHere(s.spaces[r], v);
    s.(spaces := PutLeaf(s.spaces, r, v, p), held := s.held[p.pa := s.held[p.pa] - 1],
       frames := Poke(s.frames, low, LowSlot(v), Encode(p)))
  }

  lemma MapLeafKeeps(s: State, r: int, v: nat, p: Pte)
    requires Inv(s, {}) && HasDir(s.spaces, r, LowOf(v)) && v < MAXVPN && !HasLeaf(s.spaces, r, v)
    requires DataFrame(s, p.pa) && Mappable(s.spaces, r, p)
    ensures Inv(MapLeaf(s, r, v, p), {})
    ensures ViewOf(MapLeaf(s, r, v, p)) == ViewOf(s)[r := ViewOf(s)[r][v := PageOf(s.frames, p)]]
  {
    hide FreeOk, DirsOk, NodesOk, SharingOk, CountsOk, ViewOf, SlotMatches;
    var t := MapLeaf(s, r, v, p);
    MapLeafStep(s, r, v, p);
    LeafStepDirs(s, t, r, v);
    LeafStepNodes(s, t, r, v, {}, {});
    LeafStepLeaves(s, t, r, v);
    MapLeafSharing(s.spaces, r, v, p);
    MapLeafCounts(s, r, v, p);
    LeafStepView(s, t, r, v);
  }

  lemma MapLeafStep(s: State, r: int, v: nat, p: Pte)
    requires Inv(s, {}) && HasDir(s.spaces, r, LowOf(v)) && v < MAXVPN && p.pa >= 0
    requires p.pa in s.held && s.role[p.pa].Data?
    ensures var t := MapLeaf(s, r, v, p);
      && LeafStep(s, t, r, v) && Shape(t) && SlotMatches(s, t, r, v)
      && forall pa :: pa in s.frames && s.role[pa].Data? ==> t.frames[pa] == s.frames[pa]
  {
    hide FreeOk, SharingOk, CountsOk, LeavesOk;
    assert DirOk(s, r, LowOf(v)) && NodeOk(s, r, LowOf(v));
    EntryHere(MapLeaf(s, r, v, p).spaces[r], v);
  }

  lemma MapLeafCounts(s: State, r: int, v: nat, p: Pte)
    requires Inv(s, {}) && HasDir(s.spaces, r, LowOf(v)) && v < MAXVPN && !HasLeaf(s.spaces, r, v)
    requires DataFrame(s, p.pa) && Shape(MapLeaf(s, r, v, p))
    ensures CountsOk(MapLeaf(s, r, v, p))
  {
    hide NodesOk, DirsOk, FreeOk, SharingOk, LeavesOk;
    forall pa | pa in s.frames && s.role[pa].Data?
      ensures s.ref[pa] == |Refs(PutLeaf(s.spaces, r, v, p), pa)| + s.held[p.pa := s.held[p.pa] - 1][pa]
    {
      RefsPut(s.spaces, r, v, p, pa);
    }
  }

  lemma MapLeafSharing(ss: Spaces, r: int, v: int, p: Pte)
    requires r in ss && v !in ss[r].leaves && SharingOk(ss) && Mappable(ss, r, p)
    ensures SharingOk(PutLeaf(ss, r, v, p))
  {
    var tt := PutLeaf(ss, r, v, p);
    forall q, w | HasLeaf(tt, q, w) && LeafAt(tt, q, w).flags.w
      ensures Refs(tt, LeafAt(tt, q, w).pa) == {(q, w)}
    {
      RefsPut(ss, r, v, p, LeafAt(tt, q, w).pa);
      if (q, w) != (r, v) { assert HasLeaf(ss, q, w); }
    }
    forall q, v1, v2 | HasLeaf(tt, q, v1) && HasLeaf(tt, q, v2) && LeafAt(tt, q, v1).pa == LeafAt(tt, q, v2).pa
      ensures v1 == v2
    {
      if (q, v1) != (r, v) { assert HasLeaf(ss, q, v1); }
      if (q, v2) != (r, v) { assert HasLeaf(ss, q, v2); }
    }
  }

  /** The entry of page v gives up its reference; the raw slot still has to be cleared. */
  function CutRef(s: State, r: int, v: int): State
    requires HasLeaf(s.spaces, r, v) && LeafAt(s.spaces, r, v).pa in s.held
  {
    var pa := LeafAt(s.spaces, r, v).pa;
    s.(spaces := CutLeaf(s.spaces, r, v), held := s.held[pa := s.held[pa] + 1])
  }

  lemma CutRefKeeps(s: State, r: int, v: int)
    requires Inv(s, {}) && HasLeaf(s.spaces, r, v)
    ensures LeafOk(s, r, v)
    ensures Inv(CutRef(s, r, v), {DirAt(s.spaces, r, LowOf(v))})
    ensures ViewOf(CutRef(s, r, v)) == ViewOf(s)[r := ViewOf(s)[r] - {v}]
  {
    hide FreeOk, NodesOk, SharingOk, ViewOf;
    assert LeafOk(s, r, v);
    var t := CutRef(s, r, v);
    LeafStepDirs(s, t, r, v);
    LeafStepNodes(s, t, r, v, {}, {DirAt(s.spaces, r, LowOf(v))});
    LeafStepLeaves(s, t, r, v);
    LeafStepView(s, t, r, v);
    CutLeafSharing(s.spaces, r, v);
    forall q | q in t.frames && t.role[q].Data? ensures t.ref[q] == |Refs(t.spaces, q)| + t.held[q] {
      RefsCut(s.spaces, r, v, q);
    }
  }

  lemma CutLeafSharing(ss: Spaces, r: int, v: int)
    requires SharingOk(ss) && HasLeaf(ss, r, v)
    ensures SharingOk(CutLeaf(ss, r, v))
  {
    var tt := CutLeaf(ss, r, v);
    forall q, w | HasLeaf(tt, q, w) ensures HasLeaf(ss, q, w) && LeafAt(tt, q, w) == LeafAt(ss, q, w) {}
    forall q, w | HasLeaf(tt, q, w) && LeafAt(tt, q, w).flags.w
      ensures Refs(tt, LeafAt(tt, q, w).pa) == {(q, w)}
    {
      RefsCut(ss, r, v, LeafAt(tt, q, w).pa);
      RefOf(tt, q, w);
    }
  }

  /** *pte = 0 once the reference is gone. */
  lemma ClearSlotKeeps(s: State, t: State, r: int, v: nat)
    requires v < MAXVPN && HasDir(s.spaces, r, LowOf(v)) && !HasLeaf(s.spaces, r, v)
    requires Inv(s, {DirAt(s.spaces, r, LowOf(v))})
    requires t.frames.Keys == s.frames.Keys && t == s.(frames := t.frames) && LeafStep(s, t, r, v) && SlotMatches(s, t, r, v)
    ensures Inv(t, {}) && ViewOf(t) == ViewOf(s)
  {
    LeafStepDirs(s, t, r, v);
    LeafStepNodes(s, t, r, v, {DirAt(s.spaces, r, LowOf(v))}, {});
    LeafStepLeaves(s, t, r, v);
    LeafStepView(s, t, r, v);
    var vw := ViewOf(s);
    assert vw[r] - {v} == vw[r];
  }

  /** *pte = PA2PTE(pa) | flags with the writable bit taken away: the page becomes shareable. */
  ghost function Reflag(s: State, r: int, v: int, p: Pte): State
    requires Inv(s, {}) && HasLeaf(s.spaces, r, v) && p.pa >= 0
  {
    assert LeafOk(s, r, v);
    var low := DirAt(s.spaces, r, LowOf(v));
    assert DirOk(s, r, LowOf(v)) && NodeOk(s, r, LowOf(v));
    EntryHere(s.spaces[r], v);
    s.(spaces := PutLeaf(s.spaces, r, v, p), frames := Poke(s.frames, low, LowSlot(v), Encode(p)))
  }

  lemma ReflagKeeps(s: State, r: int, v: int, p: Pte)
    requires Inv(s, {}) && HasLeaf(s.spaces, r, v)
    requires var o := LeafAt(s.spaces, r, v); p == o.(flags := o.flags.(w := false, cow := true))
    requires p.pa >= 0
    ensures Inv(Reflag(s, r, v, p), {}) && ViewOf(Reflag(s, r, v, p)) == ViewOf(s)
  {
    hide FreeOk, DirsOk, NodesOk, SharingOk, SlotMatches;
    var t := Reflag(s, r, v, p);
    ReflagStep(s, r, v, p);
    LeafStepDirs(s, t, r, v);
    LeafStepNodes(s, t, r, v, {}, {});
    LeafStepLeaves(s, t, r, v);
    LeafStepView(s, t, r, v);
    var vw := ViewOf(s);
    assert vw[r][v := PageOf(t.frames, p)] == vw[r];
    ReflagSharing(s.spaces, r, v, p);
    forall q | q in t.frames && t.role[q].Data? ensures t.ref[q] == |Refs(t.spaces, q)| + t.held[q] {
      assert Refs(t.spaces, q) == Refs(s.spaces, q);
    }
  }

  lemma ReflagStep(s: State, r: int, v: int, p: Pte)
    requires Inv(s, {}) && HasLeaf(s.spaces, r, v) && p.pa >= 0
    ensures var t := Reflag(s, r, v, p);
      && LeafOk(s, r, v) && LeafStep(s, t, r, v) && Shape(t) && SlotMatches(s, t, r, v)
      && forall pa :: pa in s.frames && s.role[pa].Data? ==> t.frames[pa] == s.frames[pa]
  {
    hide FreeOk, SharingOk, CountsOk;
    assert LeafOk(s, r, v) && DirOk(s, r, LowOf(v)) && NodeOk(s, r, LowOf(v));
    EntryHere(Reflag(s, r, v, p).spaces[r], v);
  }

  lemma ReflagSharing(ss: Spaces, r: int, v: int, p: Pte)
    requires SharingOk(ss) && HasLeaf(ss, r, v) && p.pa == LeafAt(ss, r, v).pa && !p.flags.w
    ensures SharingOk(PutLeaf(ss, r, v, p))
    ensures forall pa :: Refs(PutLeaf(ss, r, v, p), pa) == Refs(ss, pa)
  {
    var tt := PutLeaf(ss, r, v, p);
    forall q, w ensures HasLeaf(ss, q, w) <==> HasLeaf(tt, q, w) {}
    forall q, w | HasLeaf(ss, q, w) ensures LeafAt(ss, q, w).pa == LeafAt(tt, q, w).pa {}
    forall pa ensures Refs(tt, pa) == Refs(ss, pa) { RefsSame(ss, tt, pa); }
    forall q, w | HasLeaf(tt, q, w) && LeafAt(tt, q, w).flags.w
      ensures Refs(tt, LeafAt(tt, q, w).pa) == {(q, w)}
    {
      assert LeafAt(ss, q, w) == LeafAt(tt, q, w);
    }
  }

  // ---------------------------------------------------------------- page contents

  /** Rewriting a frame that only the kernel refers to: no table sees it. */
  lemma WriteHeldKeeps(s: State, pa: int, data: seq<byte>, ex: set<int>)
    requires Inv(s, ex) && pa in s.frames && s.role[pa].Data? && Refs(s.spaces, pa) == {}
    ensures var t := s.(frames := s.frames[pa := Bytes(data)]); Inv(t, ex) && ViewOf(t) == ViewOf(s)
  {
    var t := s.(frames := s.frames[pa := Bytes(data)]);
    assert Shape(t) && FreeOk(t) && CountsOk(t);
    ElsewhereKeeps(s, t, pa, ex);
  }

  /** A store through a writable entry changes that page of that table and nothing else. */
  lemma WriteUserKeeps(s: State, r: int, v: int, data: seq<byte>)
    requires Inv(s, {}) && HasLeaf(s.spaces, r, v) && LeafAt(s.spaces, r, v).flags.w && |data| == PGSIZE
    ensures LeafOk(s, r, v)
    ensures var t := s.(frames := s.frames[LeafAt(s.spaces, r, v).pa := Bytes(data)]);
      Inv(t, {}) && ViewOf(t) == ViewOf(s)[r := ViewOf(s)[r][v := ViewOf(s)[r][v].(data := data)]]
  {
    hide ViewOf, Refs;
    assert LeafOk(s, r, v);
    var pa := LeafAt(s.spaces, r, v).pa;
    var t := s.(frames := s.frames[pa := Bytes(data)]);
    assert Shape(t) && FreeOk(t) && CountsOk(t);
    forall q, n | HasDir(t.spaces, q, n) ensures DirOk(t, q, n) && NodeOk(t, q, n) {
      assert DirOk(s, q, n) && NodeOk(s, q, n);
    }
    forall q, w | HasLeaf(t.spaces, q, w) ensures LeafOk(t, q, w) { assert LeafOk(s, q, w); }
    WriteUserView(s, t, r, v, data);
  }

  lemma WriteUserView(s: State, t: State, r: int, v: int, data: seq<byte>)
    requires SharingOk(s.spaces) && HasLeaf(s.spaces, r, v) && LeafAt(s.spaces, r, v).flags.w
    requires t.spaces == s.spaces && t.frames == s.frames[LeafAt(s.spaces, r, v).pa := Bytes(data)]
    ensures ViewOf(t) == ViewOf(s)[r := ViewOf(s)[r][v := ViewOf(s)[r][v].(data := data)]]
  {
    forall q, w | HasLeaf(s.spaces, q, w) && (q, w) != (r, v)
      ensures PageOf(t.frames, LeafAt(s.spaces, q, w)) == PageOf(s.frames, LeafAt(s.spaces, q, w))
    {
      RefOf(s.spaces, q, w);
    }
    var p := LeafAt(s.spaces, r, v);
    assert PageOf(t.frames, p) == PageOf(s.frames, p).(data := data);
    OnePageView(s, t, r, v);
  }

  /** Two states over the same entries that agree on every page but (r, v). */
  lemma OnePageView(s: State, t: State, r: int, v: int)
    requires t.spaces == s.spaces && HasLeaf(s.spaces, r, v)
    requires forall q, w :: HasLeaf(s.spaces, q, w) && (q, w) != (r, v) ==>
      PageOf(t.frames, LeafAt(s.spaces, q, w)) == PageOf(s.frames, LeafAt(s.spaces, q, w))
    ensures ViewOf(t) == ViewOf(s)[r := ViewOf(s)[r][v := PageOf(t.frames, LeafAt(s.spaces, r, v))]]
  {
    hide PageOf;
    forall q | q in s.spaces && q != r ensures SpaceView(t.frames, t.spaces[q]) == SpaceView(s.frames, s.spaces[q]) {
      forall w | w in s.spaces[q].leaves
        ensures PageOf(t.frames, s.spaces[q].leaves[w]) == PageOf(s.frames, s.spaces[q].leaves[w])
      { assert HasLeaf(s.spaces, q, w); }
    }
    var sv, tv := SpaceView(s.frames, s.spaces[r]), SpaceView(t.frames, t.spaces[r]);
    forall w | w in sv && w != v ensures tv[w] == sv[w] { assert HasLeaf(s.spaces, r, w); }
    assert tv == sv[v := PageOf(t.frames, LeafAt(s.spaces, r, v))];
  }

  // ---------------------------------------------------------------- table pages

  ghost predicate Fresh(s: State, pa: int) {
    pa in s.frames && pa in s.role && pa in s.ref && pa in s.held
    && s.role[pa].Data? && s.ref[pa] == 1 && s.held[pa] == 1 && Refs(s.spaces, pa) == {}
  }

  /** A zeroed page becomes node n of table r and its parent's entry points to it. */
  ghost function AddDir(s: State, r: int, n: Node, pa: nat): State
    requires Inv(s, {}) && n.InRange() && n != Root && HasDir(s.spaces, r, n.Parent()) && Fresh(s, pa)
  {
    assert DirOk(s, r, n.Parent()) && NodeOk(s, r, n.Parent());
    s.(spaces := PutDir(s.spaces, r, n, pa), role := s.role[pa := Table(r, n)], held := s.held[pa := 0],
       frames := Poke(s.frames[pa := Ptes(Zeros())], DirAt(s.spaces, r, n.Parent()), n.Slot(), DirPte(pa)))
  }

  lemma AddDirKeeps(s: State, r: int, n: Node, pa: nat)
    requires Inv(s, {}) && n.InRange() && n != Root && !HasDir(s.spaces, r, n)
    requires HasDir(s.spaces, r, n.Parent()) && Fresh(s, pa)
    ensures Inv(AddDir(s, r, n, pa), {}) && ViewOf(AddDir(s, r, n, pa)) == ViewOf(s)
  {
    hide FreeOk, DirsOk, NodeOk, LeavesOk, SharingOk, CountsOk, Fresh, ViewOf;
    var t := AddDir(s, r, n, pa);
    AddDirShape(s, r, n, pa);
    AddDirDirs(s, t, r, n, pa);
    forall q, m | HasDir(t.spaces, q, m) ensures DirAt(t.spaces, q, m) in t.frames && NodeOk(t, q, m) {
      AddDirNode(s, t, r, n, pa, q, m);
    }
    AddDirLeaves(s, t, r, n, pa);
  }

  lemma AddDirShape(s: State, r: int, n: Node, pa: nat)
    requires Inv(s, {}) && n.InRange() && n != Root && !HasDir(s.spaces, r, n)
    requires HasDir(s.spaces, r, n.Parent()) && Fresh(s, pa)
    ensures Shape(AddDir(s, r, n, pa)) && FreeOk(AddDir(s, r, n, pa))
  {
    hide NodesOk, LeavesOk, SharingOk, CountsOk;
    assert DirOk(s, r, n.Parent());
  }

  lemma AddDirLeaves(s: State, t: State, r: int, n: Node, pa: nat)
    requires Inv(s, {}) && n.InRange() && n != Root && !HasDir(s.spaces, r, n)
    requires HasDir(s.spaces, r, n.Parent()) && Fresh(s, pa) && Shape(t)
    requires t == AddDir(s, r, n, pa)
    ensures LeavesOk(t) && SharingOk(t.spaces) && CountsOk(t) && ViewOf(t) == ViewOf(s)
  {
    hide NodesOk, FreeOk, SharingOk, CountsOk, LeavesOk;
    assert DirOk(s, r, n.Parent());
    assert SameLeaves(s.spaces, t.spaces);
    TablesOnly(s, t);
  }

  lemma AddDirDirs(s: State, t: State, r: int, n: Node, pa: nat)
    requires Inv(s, {}) && n.InRange() && n != Root && !HasDir(s.spaces, r, n)
    requires HasDir(s.spaces, r, n.Parent()) && Fresh(s, pa) && Shape(t)
    requires t == AddDir(s, r, n, pa)
    ensures DirsOk(t)
  {
    hide NodesOk, FreeOk, SharingOk, CountsOk, LeavesOk;
    forall q, m | HasDir(t.spaces, q, m) ensures DirOk(t, q, m) {
      if (q, m) != (r, n) { assert HasDir(s.spaces, q, m) && DirOk(s, q, m); }
    }
    forall q, a, b | HasDir(t.spaces, q, Low(a, b)) ensures HasDir(t.spaces, q, Mid(a)) {
      if (q, Low(a, b)) != (r, n) { assert HasDir(s.spaces, q, Low(a, b)); assert HasDir(s.spaces, q, Mid(a)); }
    }
    forall g | g in t.frames && t.role[g].Table?
      ensures HasDir(t.spaces, t.role[g].root, t.role[g].node) && DirAt(t.spaces, t.role[g].root, t.role[g].node) == g
    {
      if g != pa { assert HasDir(s.spaces, s.role[g].root, s.role[g].node); }
    }
    forall q | q in t.spaces ensures HasDir(t.spaces, q, Root) && DirAt(t.spaces, q, Root) == q {
      assert HasDir(s.spaces, q, Root);
    }
  }

  lemma AddDirNode(s: State, t: State, r: int, n: Node, pa: nat, q: int, m: Node)
    requires Inv(s, {}) && n.InRange() && n != Root && !HasDir(s.spaces, r, n)
    requires HasDir(s.spaces, r, n.Parent()) && Fresh(s, pa) && Shape(t) && DirsOk(t)
    requires t == AddDir(s, r, n, pa) && HasDir(t.spaces, q, m)
    ensures DirAt(t.spaces, q, m) in t.frames && NodeOk(t, q, m)
  {
    hide FreeOk, SharingOk, CountsOk;
    assert DirOk(s, r, n.Parent()) && NodeOk(s, r, n.Parent());
    if (q, m) == (r, n) {
      NewNodeEmpty(s, r, n, t.spaces[r]);
    } else {
      assert HasDir(s.spaces, q, m) && DirOk(s, q, m) && NodeOk(s, q, m);
      if q == r {
        OtherEntries(s.spaces[r], r, n, pa, m);
      }
    }
  }

  lemma NewNodeEmpty(s: State, r: int, n: Node, tp: Space)
    requires Inv(s, {}) && r in s.spaces && n.InRange() && n != Root && !HasDir(s.spaces, r, n)
    requires tp.leaves == s.spaces[r].leaves && tp.dirs.Keys == s.spaces[r].dirs.Keys + {n}
    ensures forall i :: 0 <= i < NPTE ==> Entry(tp, n, i) == 0
  {
    hide FreeOk, NodesOk, SharingOk, CountsOk;
    forall i | 0 <= i < NPTE ensures Entry(tp, n, i) == 0 {
      match n
      case Low(a, b) =>
        VpnSlots(a, b, i);
        assert HasLeaf(s.spaces, r, Vpn(a, b, i)) ==> LeafOk(s, r, Vpn(a, b, i));
      case Mid(a) =>
        assert HasDir(s.spaces, r, Low(a, i)) ==> HasDir(s.spaces, r, Mid(a));
    }
  }

  lemma OtherEntries(sp: Space, r: int, n: Node, pa: int, m: Node)
    requires n != Root && m.InRange() && m != n
    ensures var tp := sp.(dirs := sp.dirs[n := pa]);
      forall i :: 0 <= i < NPTE && (m != n.Parent() || i != n.Slot()) ==> Entry(tp, m, i) == Entry(sp, m, i)
  {
    forall i | 0 <= i < NPTE && (m != n.Parent() || i != n.Slot())
      ensures Entry(sp.(dirs := sp.dirs[n := pa]), m, i) == Entry(sp, m, i)
    {
      assert m.Low? || m.Child(i) != n;
    }
  }

  ghost predicate SameLeaves(ss: Spaces, tt: Spaces) {
    && tt.Keys == ss.Keys
    && (forall r, v :: HasLeaf(tt, r, v) <==> HasLeaf(ss, r, v))
    && forall r, v :: HasLeaf(tt, r, v) ==> LeafAt(tt, r, v) == LeafAt(ss, r, v)
  }

  lemma SameLeavesRefs(ss: Spaces, tt: Spaces)
    requires SameLeaves(ss, tt) && SharingOk(ss)
    ensures SharingOk(tt) && forall pa :: Refs(tt, pa) == Refs(ss, pa)
  {
    forall pa ensures Refs(tt, pa) == Refs(ss, pa) { RefsSame(tt, ss, pa); }
  }

  /** Table pages may change in any way: what users see does not depend on them. */
  lemma TablesOnly(s: State, t: State)
    requires Shape(s) && LeavesOk(s) && Shape(t) && t.frames.Keys == s.frames.Keys && t.ref == s.ref
    requires CountsOk(s) && SharingOk(s.spaces) && SameLeaves(s.spaces, t.spaces)
    requires forall r, n :: HasDir(s.spaces, r, n) && n.Low? ==> HasDir(t.spaces, r, n)
    requires forall pa :: pa in s.frames && s.role[pa].Data? && Refs(s.spaces, pa) != {} ==>
      t.role[pa].Data? && t.frames[pa] == s.frames[pa]
    requires forall pa :: pa in s.frames && t.role[pa].Data? ==>
      if s.role[pa].Data? then t.held[pa] == s.held[pa] else t.held[pa] == s.ref[pa]
    ensures LeavesOk(t) && SharingOk(t.spaces) && CountsOk(t) && ViewOf(t) == ViewOf(s)
  {
    hide SharingOk;
    SameLeavesRefs(s.spaces, t.spaces);
    forall pa | pa in t.frames && t.role[pa].Data? ensures t.ref[pa] == |Refs(t.spaces, pa)| + t.held[pa] {
      if !s.role[pa].Data? { NoRefs(s, pa); }
    }
    forall r, v | HasLeaf(t.spaces, r, v)
      ensures LeafOk(t, r, v) && PageOf(t.frames, LeafAt(t.spaces, r, v)) == PageOf(s.frames, LeafAt(s.spaces, r, v))
    {
      assert HasLeaf(s.spaces, r, v) && LeafOk(s, r, v);
      RefOf(s.spaces, r, v);
    }
    SameLeavesView(s, t);
  }

  lemma SameLeavesView(s: State, t: State)
    requires SameLeaves(s.spaces, t.spaces)
    requires forall r, v :: HasLeaf(t.spaces, r, v) ==>
      PageOf(t.frames, LeafAt(t.spaces, r, v)) == PageOf(s.frames, LeafAt(s.spaces, r, v))
    ensures ViewOf(t) == ViewOf(s)
  {
    hide PageOf;
    forall r | r in s.spaces ensures SpaceView(t.frames, t.spaces[r]) == SpaceView(s.frames, s.spaces[r]) {
      forall v ensures v in t.spaces[r].leaves <==> v in s.spaces[r].leaves {
        assert HasLeaf(t.spaces, r, v) <==> HasLeaf(s.spaces, r, v);
      }
      forall v | v in t.spaces[r].leaves
        ensures PageOf(t.frames, t.spaces[r].leaves[v]) == PageOf(s.frames, s.spaces[r].leaves[v])
      { assert HasLeaf(t.spaces, r, v); }
    }
  }

  /** uvmcreate: a zeroed page becomes the root of an empty table. */
  function AddRoot(s: State, pa: int): State {
    s.(spaces := s.spaces[pa := Space(map[Root := pa], map[])], role := s.role[pa := Table(pa, Root)],
       held := s.held[pa := 0], frames := s.frames[pa := Ptes(Zeros())])
  }

  lemma AddRootKeeps(s: State, pa: int)
    requires Inv(s, {}) && Fresh(s, pa)
    ensures pa !in s.spaces
    ensures Inv(AddRoot(s, pa), {}) && ViewOf(AddRoot(s, pa)) == ViewOf(s)[pa := map[]]
  {
    hide LeavesOk, SharingOk, CountsOk, NodesOk;
    forall q | q in s.spaces ensures q != pa { assert DirOk(s, q, Root); }
    assert Shape(AddRoot(s, pa)) && FreeOk(AddRoot(s, pa));
    AddRootDirs(s, AddRoot(s, pa), pa);
    AddRootLeaves(s, AddRoot(s, pa), pa);
  }

  lemma AddRootDirs(s: State, t: State, pa: int)
    requires Inv(s, {}) && Fresh(s, pa) && pa !in s.spaces && t == AddRoot(s, pa) && Shape(t)
    ensures DirsOk(t) && NodesOk(t, {})
  {
    hide LeavesOk, SharingOk, CountsOk, FreeOk, NodesOk, Refs, DirOk;
    forall q, m | HasDir(t.spaces, q, m) ensures DirOk(t, q, m) {
      AddRootDir(s, t, pa, q, m);
    }
    forall g | g in t.frames && t.role[g].Table? && g != pa
      ensures HasDir(t.spaces, t.role[g].root, t.role[g].node) && DirAt(t.spaces, t.role[g].root, t.role[g].node) == g
    {
      assert HasDir(s.spaces, s.role[g].root, s.role[g].node);
    }
    forall q, a, b | HasDir(t.spaces, q, Low(a, b)) ensures HasDir(t.spaces, q, Mid(a)) {
      assert HasDir(s.spaces, q, Low(a, b)) && HasDir(s.spaces, q, Mid(a));
    }
    assert DirsOk(t);
    AddRootNodes(s, t, pa);
  }

  lemma AddRootDir(s: State, t: State, pa: int, q: int, m: Node)
    requires Inv(s, {}) && Fresh(s, pa) && pa !in s.spaces && t == AddRoot(s, pa) && Shape(t) && HasDir(t.spaces, q, m)
    ensures DirOk(t, q, m)
  {
    hide LeavesOk, SharingOk, CountsOk, FreeOk, NodesOk, Refs;
    if q != pa { assert HasDir(s.spaces, q, m) && DirOk(s, q, m); }
  }

  lemma AddRootNodes(s: State, t: State, pa: int)
    requires Inv(s, {}) && Fresh(s, pa) && pa !in s.spaces && t == AddRoot(s, pa) && Shape(t) && DirsOk(t)
    ensures NodesOk(t, {})
  {
    hide LeavesOk, SharingOk, CountsOk, FreeOk;
    forall q, m | HasDir(t.spaces, q, m) ensures NodeOk(t, q, m) {
      if q != pa { assert HasDir(s.spaces, q, m) && DirOk(s, q, m) && NodeOk(s, q, m); }
    }
  }

  lemma AddRootLeaves(s: State, t: State, pa: int)
    requires Inv(s, {}) && Fresh(s, pa) && pa !in s.spaces && t == AddRoot(s, pa) && Shape(t)
    ensures LeavesOk(t) && SharingOk(t.spaces) && CountsOk(t) && ViewOf(t) == ViewOf(s)[pa := map[]]
  {
    AddRootRefs(s.spaces, t.spaces, pa);
    forall q, w | HasLeaf(t.spaces, q, w) ensures LeafOk(t, q, w) {
      assert HasLeaf(s.spaces, q, w) && LeafOk(s, q, w);
      RefOf(s.spaces, q, w);
    }
    AddRootView(s, t, pa);
  }

  lemma AddRootRefs(ss: Spaces, tt: Spaces, pa: int)
    requires pa !in ss && SharingOk(ss) && tt == ss[pa := Space(map[Root := pa], map[])]
    ensures forall q, w :: HasLeaf(tt, q, w) <==> HasLeaf(ss, q, w)
    ensures forall q, w :: HasLeaf(tt, q, w) ==> LeafAt(tt, q, w) == LeafAt(ss, q, w)
    ensures forall g :: Refs(tt, g) == Refs(ss, g)
    ensures SharingOk(tt)
  {
    forall q, w ensures HasLeaf(tt, q, w) <==> HasLeaf(ss, q, w) {}
    forall g ensures Refs(tt, g) == Refs(ss, g) { RefsSame(tt, ss, g); }
  }

  lemma AddRootView(s: State, t: State, pa: int)
    requires pa !in s.spaces && t == AddRoot(s, pa) && Refs(s.spaces, pa) == {}
    ensures ViewOf(t) == ViewOf(s)[pa := map[]]
  {
    forall q | q in s.spaces ensures SpaceView(t.frames, t.spaces[q]) == SpaceView(s.frames, s.spaces[q]) {
      forall w | w in s.spaces[q].leaves
        ensures PageOf(t.frames, s.spaces[q].leaves[w]) == PageOf(s.frames, s.spaces[q].leaves[w])
      { assert HasLeaf(s.spaces, q, w); RefOf(s.spaces, q, w); }
    }
    assert SpaceView(t.frames, t.spaces[pa]) == map[];
  }

  // ---------------------------------------------------------------- giving table pages back

  /** x lies in the subtree of n. */
  predicate Under(n: Node, x: Node) {
    match n
    case Root => true
    case Mid(a) => x == n || (x.Low? && x.a == a)
    case Low(_, _) => x == n
  }

  function CutDir(ss: Spaces, r: int, n: Node): Spaces
    requires r in ss
  {
    if n == Root then ss - {r} else ss[r := ss[r].(dirs := ss[r].dirs - {n})]
  }

  /** A node without children or leaves leaves its table; the kernel holds the page. */
  function CutNode(s: State, r: int, n: Node): State
    requires HasDir(s.spaces, r, n)
  {
    var pa := DirAt(s.spaces, r, n);
    s.(spaces := CutDir(s.spaces, r, n), role := s.role[pa := Data], held := s.held[pa := 1])
  }

  ghost predicate Childless(ss: Spaces, r: int, n: Node) {
    forall x :: HasDir(ss, r, x) && Under(n, x) ==> x == n
  }

  ghost function ParentPage(s: State, r: int, n: Node): set<int>
    requires Shape(s) && DirsOk(s) && HasDir(s.spaces, r, n)
  {
    if n == Root then {} else
    assert n.Low? ==> HasDir(s.spaces, r, Low(n.a, n.b));
    assert HasDir(s.spaces, r, n.Parent());
    {DirAt(s.spaces, r, n.Parent())}
  }

  lemma CutNodeKeeps(s: State, r: int, n: Node)
    requires Inv(s, {}) && HasDir(s.spaces, r, n) && Childless(s.spaces, r, n)
    requires s.spaces[r].leaves == map[]
    ensures DirOk(s, r, n)
    ensures Inv(CutNode(s, r, n), ParentPage(s, r, n))
    ensures ViewOf(CutNode(s, r, n)) == if n == Root then ViewOf(s) - {r} else ViewOf(s)
  {
    var t := CutNode(s, r, n);
    assert DirOk(s, r, n);
    assert Shape(t) && FreeOk(t);
    CutNodeDirs(s, t, r, n);
    CutNodeNodes(s, t, r, n);
    CutNodeLeaves(s, t, r, n);
    CutNodeView(s, t, r, n);
  }

  lemma CutNodeLeaves(s: State, t: State, r: int, n: Node)
    requires Inv(s, {}) && HasDir(s.spaces, r, n) && t == CutNode(s, r, n) && Shape(t)
    requires s.spaces[r].leaves == map[] && s.ref[DirAt(s.spaces, r, n)] == 1
    requires DirOk(s, r, n)
    ensures LeavesOk(t) && SharingOk(t.spaces) && CountsOk(t)
  {
    hide NodesOk, FreeOk;
    NoRefs(s, DirAt(s.spaces, r, n));
    forall q, w ensures HasLeaf(t.spaces, q, w) <==> HasLeaf(s.spaces, q, w) {}
    forall q, w | HasLeaf(t.spaces, q, w)
      ensures LeafAt(t.spaces, q, w) == LeafAt(s.spaces, q, w) && LeafOk(t, q, w)
    {
      assert LeafOk(s, q, w) && q != r;
      assert HasDir(s.spaces, q, LowOf(w)) && HasDir(t.spaces, q, LowOf(w));
      RefOf(s.spaces, q, w);
    }
    forall g ensures Refs(t.spaces, g) == Refs(s.spaces, g) { RefsSame(t.spaces, s.spaces, g); }
  }

  lemma CutNodeView(s: State, t: State, r: int, n: Node)
    requires HasDir(s.spaces, r, n) && t == CutNode(s, r, n)
    ensures ViewOf(t) == if n == Root then ViewOf(s) - {r} else ViewOf(s)
  {
    forall q | q in t.spaces ensures SpaceView(t.frames, t.spaces[q]) == SpaceView(s.frames, s.spaces[q]) {}
  }

  lemma CutNodeDirs(s: State, t: State, r: int, n: Node)
    requires Inv(s, {}) && HasDir(s.spaces, r, n) && Childless(s.spaces, r, n)
    requires t == CutNode(s, r, n) && Shape(t)
    ensures DirsOk(t)
  {
    hide NodesOk, LeavesOk, SharingOk, CountsOk, FreeOk;
    var pa := DirAt(s.spaces, r, n);
    assert DirOk(s, r, n);
    forall q, m | HasDir(t.spaces, q, m) ensures HasDir(s.spaces, q, m) && (q, m) != (r, n) && DirOk(t, q, m) {
      assert HasDir(s.spaces, q, m) && DirOk(s, q, m);
    }
    forall q, a, b | HasDir(t.spaces, q, Low(a, b)) ensures HasDir(t.spaces, q, Mid(a)) {
      assert HasDir(s.spaces, q, Low(a, b)) && HasDir(s.spaces, q, Mid(a));
      assert Under(Mid(a), Low(a, b));
    }
    forall g | g in t.frames && t.role[g].Table?
      ensures HasDir(t.spaces, t.role[g].root, t.role[g].node) && DirAt(t.spaces, t.role[g].root, t.role[g].node) == g
    {
      var q, m := s.role[g].root, s.role[g].node;
      assert HasDir(s.spaces, q, m) && DirAt(s.spaces, q, m) == g;
      assert n == Root ==> Under(n, m);
      assert (q, m) != (r, n);
    }
    forall q | q in t.spaces ensures HasDir(t.spaces, q, Root) && DirAt(t.spaces, q, Root) == q {
      assert HasDir(s.spaces, q, Root);
    }
  }

  lemma CutNodeNodes(s: State, t: State, r: int, n: Node)
    requires Inv(s, {}) && HasDir(s.spaces, r, n) && Childless(s.spaces, r, n)
    requires t == CutNode(s, r, n) && Shape(t) && DirsOk(t)
    ensures NodesOk(t, ParentPage(s, r, n))
  {
    hide LeavesOk, SharingOk, CountsOk, FreeOk;
    var ex := ParentPage(s, r, n);
    forall q, m | HasDir(t.spaces, q, m) && DirAt(t.spaces, q, m) !in ex ensures NodeOk(t, q, m) {
      assert HasDir(s.spaces, q, m) && DirOk(s, q, m) && NodeOk(s, q, m);
      if q == r {
        assert m != n.Parent();
        forall i | 0 <= i < NPTE ensures Entry(t.spaces[r], m, i) == Entry(s.spaces[r], m, i) {
          assert m.Low? || m.Child(i) != n;
        }
      }
    }
  }

  /** pagetable[i] = 0 in the parent, once the child page is gone. */
  lemma ClearDirKeeps(s: State, t: State, r: int, n: Node, i: nat)
    requires HasDir(s.spaces, r, n) && !n.Low? && i < NPTE && Inv(s, {DirAt(s.spaces, r, n)})
    requires !HasDir(s.spaces, r, n.Child(i))
    requires var pg := DirAt(s.spaces, r, n);
      && pg in s.frames && s.frames[pg].Ptes? && |s.frames[pg].entries| == NPTE
      && (forall j :: 0 <= j < NPTE && j != i ==> s.frames[pg].entries[j] == Entry(s.spaces[r], n, j))
      && t == s.(frames := Poke(s.frames, pg, i, 0))
    ensures Inv(t, {}) && ViewOf(t) == ViewOf(s)
  {
    hide LeavesOk, SharingOk, CountsOk;
    var pg := DirAt(s.spaces, r, n);
    assert DirOk(s, r, n);
    assert Shape(t) && FreeOk(t);
    forall q, m | HasDir(t.spaces, q, m) ensures DirOk(t, q, m) { assert DirOk(s, q, m); }
    assert DirsOk(t);
    forall q, m | HasDir(t.spaces, q, m) ensures NodeOk(t, q, m) {
      assert DirOk(s, q, m);
      if DirAt(s.spaces, q, m) != pg { assert NodeOk(s, q, m); }
    }
    TablesOnly(s, t);
  }

  // ---------------------------------------------------------------- frames of the operations

  /** t may have more table pages under r, and nothing else changed for data frames or leaves. */
  ghost predicate Grown(s: State, t: State, r: int) {
    && t.frames.Keys == s.frames.Keys && t.spaces.Keys == s.spaces.Keys
    && (forall q :: q in s.spaces && q != r ==> t.spaces[q] == s.spaces[q])
    && (r in s.spaces ==> t.spaces[r].leaves == s.spaces[r].leaves && s.spaces[r].dirs.Keys <= t.spaces[r].dirs.Keys)
    && SameData(s, t) && NoNewData(s, t)
  }

  /** No frame was taken for data and kept. */
  ghost predicate NoNewData(s: State, t: State) { forall pa :: pa in t.role && t.role[pa].Data? ==> pa in s.role && s.role[pa].Data? }

  ghost predicate SameData(s: State, t: State) {
    forall pa :: pa in s.role && s.role[pa].Data? ==>
      && pa in t.role && t.role[pa].Data?
      && (pa in s.frames ==> pa in t.frames && t.frames[pa] == s.frames[pa])
      && (pa in s.ref ==> pa in t.ref && t.ref[pa] == s.ref[pa])
      && (pa in s.held ==> pa in t.held && t.held[pa] == s.held[pa])
  }

  /** The data frames outside x are untouched. */
  ghost predicate SameDataBut(s: State, t: State, x: set<int>) {
    forall pa :: pa in s.role && s.role[pa].Data? && pa !in x ==>
      && pa in t.role && t.role[pa].Data?
      && (pa in s.frames ==> pa in t.frames && t.frames[pa] == s.frames[pa])
      && (pa in s.ref ==> pa in t.ref && t.ref[pa] == s.ref[pa])
      && (pa in s.held ==> pa in t.held && t.held[pa] == s.held[pa])
  }

  /** Only table r changed, and it kept its table pages. */
  ghost predicate OnlyTable(s: State, t: State, r: int) {
    && t.frames.Keys == s.frames.Keys && t.spaces.Keys == s.spaces.Keys && r in s.spaces
    && (forall q :: q in s.spaces && q != r ==> t.spaces[q] == s.spaces[q])
    && s.spaces[r].dirs.Keys <= t.spaces[r].dirs.Keys && NoNewData(s, t)
  }

  /** t is s with page v of r newly entered as p; the kernel's reference went to the entry. */
  ghost predicate Mapped1(s: State, t: State, r: int, v: int, p: Pte) {
    && OnlyTable(s, t, r) && t.spaces[r].leaves == s.spaces[r].leaves[v := p]
    && SameDataBut(s, t, {p.pa})
    && p.pa in s.frames && p.pa in s.ref && p.pa in s.held && p.pa in t.ref && p.pa in t.role && p.pa in t.held
    && t.role[p.pa].Data? && t.frames[p.pa] == s.frames[p.pa]
    && t.ref[p.pa] == s.ref[p.pa] && t.held[p.pa] == s.held[p.pa] - 1
  }

  /** t is s with page v of r removed and its frame given up once. */
  ghost predicate Unmapped1(s: State, t: State, r: int, v: int) {
    && OnlyTable(s, t, r) && v in s.spaces[r].leaves
    && t.spaces[r].dirs == s.spaces[r].dirs
    && t.spaces[r].leaves == s.spaces[r].leaves - {v}
    && SameDataBut(s, t, {s.spaces[r].leaves[v].pa})
    && Surviving(s, t)
  }

  /** Frames that are still in use kept their bytes and the kernel's references. */
  ghost predicate Surviving(s: State, t: State) {
    forall pa :: pa in t.role && t.role[pa].Data? ==>
      && pa in s.role && s.role[pa].Data?
      && pa in t.frames && pa in s.frames && t.frames[pa] == s.frames[pa]
      && pa in t.held && pa in s.held && t.held[pa] == s.held[pa]
  }

  predicate InSpan(v: int, lo: int, n: nat) { lo <= v < lo + n }
  ghost function Span(lo: int, n: nat): set<int> { set v | lo <= v < lo + n && InSpan(v, lo, n) }

  /** The frames named by the pages lo .. lo+n-1 of one table. */
  ghost function FramesOf(leaves: map<int, Pte>, lo: int, n: nat): set<int> {
    set v | v in leaves && lo <= v < lo + n :: leaves[v].pa
  }

  /** t is s without the pages lo .. lo+n-1 of r. */
  ghost predicate UnmappedN(s: State, t: State, r: int, lo: int, n: nat) {
    && OnlyTable(s, t, r)
    && t.spaces[r].dirs == s.spaces[r].dirs
    && t.spaces[r].leaves == s.spaces[r].leaves - Span(lo, n)
    && SameDataBut(s, t, FramesOf(s.spaces[r].leaves, lo, n))
    && Surviving(s, t)
  }

  lemma UnmappedNext(s: State, t: State, u: State, r: int, lo: int, n: nat)
    requires UnmappedN(s, t, r, lo, n) && Unmapped1(t, u, r, lo + n)
    ensures UnmappedN(s, u, r, lo, n + 1)
  {
    var m := s.spaces[r].leaves;
    assert Span(lo, n + 1) == Span(lo, n) + {lo + n};
    assert m - Span(lo, n) - {lo + n} == m - Span(lo, n + 1);
    assert t.spaces[r].leaves[lo + n] == m[lo + n];
    assert FramesOf(m, lo, n + 1) == FramesOf(m, lo, n) + {m[lo + n].pa} by {
      forall x ensures x in FramesOf(m, lo, n + 1) <==> x in FramesOf(m, lo, n) || x == m[lo + n].pa {
        if x in FramesOf(m, lo, n + 1) {
          var v :| v in m && lo <= v < lo + n + 1 && m[v].pa == x;
        }
      }
    }
    SameDataTrans(s, t, u, FramesOf(m, lo, n), {m[lo + n].pa});
  }

  lemma SameDataTrans(s: State, t: State, u: State, x: set<int>, y: set<int>)
    requires SameDataBut(s, t, x) && SameDataBut(t, u, y)
    ensures SameDataBut(s, u, x + y)
  {
  }

  ghost function MapLeaves(m: map<int, Pte>, v: int, pa: int, f: Flags, n: nat): map<int, Pte> {
    map w | w in m.Keys + Span(v, n) :: if v <= w < v + n then Pte(pa + (w - v) * PGSIZE, f) else m[w]
  }

  predicate InRun(q: int, pa: int, n: nat) {
    q >= pa && (q - pa) % PGSIZE == 0 && (q - pa) / PGSIZE < n
  }

  /** t is s with n consecutive pages from v entered for n consecutive frames from pa. */
  ghost predicate MappedN(s: State, t: State, r: int, v: int, pa: int, f: Flags, n: nat) {
    && OnlyTable(s, t, r)
    && t.spaces[r].leaves == MapLeaves(s.spaces[r].leaves, v, pa, f, n)
    && forall q :: q in s.role && s.role[q].Data? ==>
         && q in t.role && t.role[q].Data? && q in s.frames && q in t.frames && t.frames[q] == s.frames[q]
         && q in s.ref && q in t.ref && t.ref[q] == s.ref[q] && q in s.held && q in t.held
         && t.held[q] == s.held[q] - (if InRun(q, pa, n) then 1 else 0)
  }

  lemma MappedZero(s: State, r: int, v: int, pa: int, f: Flags)
    requires Shape(s) && r in s.spaces
    ensures MappedN(s, s, r, v, pa, f, 0)
  {
    assert MapLeaves(s.spaces[r].leaves, v, pa, f, 0) == s.spaces[r].leaves;
  }

  lemma MappedNext(s: State, t: State, u: State, r: int, v: int, pa: int, f: Flags, n: nat)
    requires MappedN(s, t, r, v, pa, f, n) && Mapped1(t, u, r, v + n, Pte(pa + n * PGSIZE, f))
    requires s.role.Keys == s.frames.Keys && pa + n * PGSIZE in s.role && s.role[pa + n * PGSIZE].Data?
    ensures MappedN(s, u, r, v, pa, f, n + 1)
  {
    var m := s.spaces[r].leaves;
    assert MapLeaves(m, v, pa, f, n + 1) == MapLeaves(m, v, pa, f, n)[v + n := Pte(pa + n * PGSIZE, f)];
    forall q ensures InRun(q, pa, n + 1) <==> InRun(q, pa, n) || q == pa + n * PGSIZE {
      RunStep(q, pa, n);
    }
    RunStep(pa + n * PGSIZE, pa, n);
  }

  lemma RunStep(q: int, pa: int, n: nat)
    ensures InRun(q, pa, n + 1) <==> InRun(q, pa, n) || q == pa + n * PGSIZE
    ensures !InRun(pa + n * PGSIZE, pa, n)
  {
    assert (n * PGSIZE) / PGSIZE == n && (n * PGSIZE) % PGSIZE == 0;
    if q >= pa && (q - pa) % PGSIZE == 0 {
      assert q - pa == (q - pa) / PGSIZE * PGSIZE;
    }
  }

  /** What the tables show after new entries were made: only table r shows more. */
  lemma MappedView(s: State, t: State, r: int)
    requires Shape(s) && LeavesOk(s) && t.spaces.Keys == s.spaces.Keys && r in s.spaces
    requires forall q :: q in s.spaces && q != r ==> t.spaces[q] == s.spaces[q]
    requires forall q :: q in s.frames && s.role[q].Data? ==> q in t.frames && t.frames[q] == s.frames[q]
    requires forall v :: v in t.spaces[r].leaves ==>
      t.spaces[r].leaves[v].pa in s.frames && s.role[t.spaces[r].leaves[v].pa].Data?
    ensures ViewOf(t) == ViewOf(s)[r := SpaceView(s.frames, t.spaces[r])]
  {
    forall q | q in s.spaces && q != r ensures SpaceView(t.frames, t.spaces[q]) == SpaceView(s.frames, s.spaces[q]) {
      forall w | w in s.spaces[q].leaves
        ensures PageOf(t.frames, s.spaces[q].leaves[w]) == PageOf(s.frames, s.spaces[q].leaves[w])
      { assert HasLeaf(s.spaces, q, w) && LeafOk(s, q, w); }
    }
    forall w | w in t.spaces[r].leaves
      ensures PageOf(t.frames, t.spaces[r].leaves[w]) == PageOf(s.frames, t.spaces[r].leaves[w])
    {
    }
    assert SpaceView(t.frames, t.spaces[r]) == SpaceView(s.frames, t.spaces[r]);
  }

  /** Between operations the kernel itself refers to no user page. */
  ghost predicate Quiet(s: State) {
    forall r, v :: HasLeaf(s.spaces, r, v) ==>
      LeafAt(s.spaces, r, v).pa in s.held && s.held[LeafAt(s.spaces, r, v).pa] == 0
  }

  /** Between operations every frame in use is a table page or named by an entry: the kernel keeps no
      frame for itself. */
  ghost predicate Tidy(s: State) {
    forall pa :: pa in s.role && s.role[pa].Data? ==> pa in s.held && s.held[pa] == 0
  }

  /** Frames neither appear nor vanish, and none is kept by the kernel. */
  ghost predicate Steady(s: State, t: State) { t.frames.Keys == s.frames.Keys && (Tidy(s) ==> Tidy(t)) }

  /** Every entry is writable, so no page is shared. */
  ghost predicate Plain(ss: Spaces) { forall r, v :: HasLeaf(ss, r, v) ==> LeafAt(ss, r, v).flags.w }

  ghost predicate StaysPlain(ss: Spaces, tt: Spaces) { Plain(ss) ==> Plain(tt) }

  lemma UnmappedSteady(s: State, t: State, r: int, lo: int, n: nat)
    requires UnmappedN(s, t, r, lo, n)
    ensures Steady(s, t) && StaysPlain(s.spaces, t.spaces)
  {
    forall q, v | HasLeaf(t.spaces, q, v) ensures HasLeaf(s.spaces, q, v) && LeafAt(t.spaces, q, v) == LeafAt(s.spaces, q, v) { }
  }

  lemma SteadyTrans(s: State, t: State, u: State)
    requires Steady(s, t) && Steady(t, u)
    ensures Steady(s, u)
  {
  }

  lemma PlainTrans(s: State, t: State, u: State)
    requires StaysPlain(s.spaces, t.spaces) && StaysPlain(t.spaces, u.spaces)
    ensures StaysPlain(s.spaces, u.spaces)
  {
  }
}
