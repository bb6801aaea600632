/** The in-memory inode table of xv6-lab-filesystem/fs.c:195-358 as an interleaved step system: ialloc,
    iget, idup, ilock, iunlock, iput and iupdate, for any number of references. A step is one critical
    section of itable.lock, one operation on an inode's sleep-lock, or one access to the on-disk inode
    under its buffer's lock. A handle is one reference; inum stands for device and number. */
module InodeTable {
  import opened Common

  type Handle = nat

  /** A device and an inode number on it. */
  datatype Id = Id(dev: nat, num: nat)

  /** The on-disk part of an inode; kind 0 means free, body stands for the other fields. */
  datatype Dinode = Dinode(kind: nat, nlink: nat, body: nat)

  datatype Entry = Entry(inum: Id, ref: nat, valid: bool, mem: Dinode)

  /** Fresh: ialloc has marked the inode on disk and calls iget. Loading: ilock has the sleep-lock.
      Dirty: changed in memory, iupdate to come. Drop1 .. Drop4: iput frees the inode: before its
      iupdate, after it, after valid = 0, and after the sleep-lock was released. Panicked: ilock has
      read a free inode. */
  datatype Pc = Idle | Fresh(inum: Id) | Ref(e: nat) | Loading(e: nat) | Locked(e: nat) | Dirty(e: nat)
    | Drop1(e: nat) | Drop2(e: nat) | Drop3(e: nat) | Drop4(e: nat) | Panicked(e: nat)

  /** sure is a history variable: the handles whose reference was got at a moment when the inode was
      neither free nor about to be freed, and duplicates of those. */
  datatype State = State(entries: seq<Entry>, lock: seq<Option<Handle>>, disk: map<Id, Dinode>, pcs: map<Handle, Pc>, sure: set<Handle>)

  predicate Refers(pc: Pc) { !pc.Idle? && !pc.Fresh? }
  predicate HasLock(pc: Pc) { pc.Loading? || pc.Locked? || pc.Dirty? || pc.Drop1? || pc.Drop2? || pc.Drop3? || pc.Panicked? }
  /** The inode has been freed on disk by this iput. */
  predicate Freed(pc: Pc) { pc.Drop2? || pc.Drop3? || pc.Drop4? }

  // ---------------------------------------------------------------- iget

  /** The first live entry of inum from position i on, or |es|. */
  function Find(es: seq<Entry>, inum: Id, i: nat): (r: nat)
    requires i <= |es|
    ensures i <= r <= |es| && (r < |es| ==> es[r].ref > 0 && es[r].inum == inum)
    ensures forall j :: i <= j < r ==> !(es[j].ref > 0 && es[j].inum == inum)
    decreases |es| - i
  {
    if i == |es| || (es[i].ref > 0 && es[i].inum == inum) then i else Find(es, inum, i + 1)
  }

  function FindFree(es: seq<Entry>, i: nat): (r: nat)
    requires i <= |es|
    ensures i <= r <= |es| && (r < |es| ==> es[r].ref == 0) && forall j :: i <= j < r ==> es[j].ref > 0
    decreases |es| - i
  {
    if i == |es| || es[i].ref == 0 then i else FindFree(es, i + 1)
  }

  /** The one pass over the table in iget: the live entry of inum if there is one, and otherwise the
      first empty slot, if any. */
  method IgetScan(es: seq<Entry>, inum: Id) returns (hit: bool, at: nat)
    ensures hit <==> Find(es, inum, 0) < |es|
    ensures at == if hit then Find(es, inum, 0) else FindFree(es, 0)
  {
    var i, empty := 0, |es|;
    while i < |es|
      invariant 0 <= i <= |es| && 0 <= empty <= |es| && Find(es, inum, 0) == Find(es, inum, i)
      invariant empty == |es| ==> FindFree(es, 0) == FindFree(es, i)
      invariant empty < |es| ==> empty == FindFree(es, 0)
    {
      if es[i].ref > 0 && es[i].inum == inum {
        return true, i;
      }
      if empty == |es| && es[i].ref == 0 {
        empty := i;
      }
      i := i + 1;
    }
    assert Find(es, inum, |es|) == |es| && FindFree(es, |es|) == |es|;
    return false, empty;
  }

  /** iget finds or makes an entry; without a free slot the kernel panics. */
  predicate CanGet(es: seq<Entry>, inum: Id) { Find(es, inum, 0) < |es| || FindFree(es, 0) < |es| }

  function Slot(es: seq<Entry>, inum: Id): (e: nat)
    requires CanGet(es, inum)
    ensures e < |es|
  {
    if Find(es, inum, 0) < |es| then Find(es, inum, 0) else FindFree(es, 0)
  }

  function Got(es: seq<Entry>, inum: Id): seq<Entry>
    requires CanGet(es, inum)
  {
    var e := Slot(es, inum);
    es[e := if Find(es, inum, 0) < |es| then es[e].(ref := es[e].ref + 1) else Entry(inum, 1, false, es[e].mem)]
  }

  // ---------------------------------------------------------------- steps

  datatype Act = Get(inum: Id) | Alloc(inum: Id, kind: nat) | Dup(h: Handle) | Lock | Unlock | Write(d: Dinode) | Put | Go

  /** The inode is allocated, and no iput has decided to free it. */
  predicate Secure(s: State, inum: Id) {
    && inum in s.disk && s.disk[inum].kind != 0
    && forall g :: g in s.pcs && s.pcs[g].Drop1? && s.pcs[g].e < |s.entries| ==> s.entries[s.pcs[g].e].inum != inum
  }

  /** The caller obeys its contract: a change in memory is followed by iupdate before iunlock, and does
      not free. iget may be called for any number. */
  ghost predicate Enabled(s: State, h: Handle, a: Act) {
    h in s.pcs && (Refers(s.pcs[h]) ==> s.pcs[h].e < |s.entries| && s.pcs[h].e < |s.lock|) &&
    match a
    case Get(inum) => s.pcs[h].Idle? && inum in s.disk && CanGet(s.entries, inum)
    case Alloc(inum, kind) => s.pcs[h].Idle? && inum in s.disk && s.disk[inum].kind == 0 && kind != 0
    case Dup(g) => (s.pcs[h].Ref? || s.pcs[h].Locked?) && g in s.pcs && s.pcs[g].Idle?
    case Lock => s.pcs[h].Ref? && s.lock[s.pcs[h].e].None?
    case Unlock => s.pcs[h].Locked?
    case Write(d) => (s.pcs[h].Locked? || s.pcs[h].Dirty?) && d.kind != 0
    case Put => s.pcs[h].Ref?
    case Go => !s.pcs[h].Idle? && !s.pcs[h].Ref? && !s.pcs[h].Locked? && !s.pcs[h].Panicked? && (s.pcs[h].Fresh? ==> CanGet(s.entries, s.pcs[h].inum))
  }

  function At(s: State, h: Handle, pc: Pc): State { s.(pcs := s.pcs[h := pc]) }

  function SetEntry(s: State, e: nat, x: Entry): State
    requires e < |s.entries|
  {
    s.(entries := s.entries[e := x])
  }

  function SetDisk(s: State, inum: Id, d: Dinode): State {
    if inum in s.disk then s.(disk := s.disk[inum := d]) else s
  }

  function DoGet(s: State, h: Handle, inum: Id): State
    requires CanGet(s.entries, inum)
  {
    s.(entries := Got(s.entries, inum), pcs := s.pcs[h := Ref(Slot(s.entries, inum))],
       sure := if Secure(s, inum) then s.sure + {h} else s.sure - {h})
  }

  /** iput: free the inode if this is the last reference to it and it has no links. The sleep-lock is
      taken inside the critical section; see NoBlockInIput. */
  function DoPut(s: State, h: Handle, e: nat): State
    requires e < |s.entries| && e < |s.lock|
  {
    var x := s.entries[e];
    if x.ref == 1 && x.valid && x.mem.nlink == 0 then s.(lock := s.lock[e := Some(h)], pcs := s.pcs[h := Drop1(e)])
    else At(SetEntry(s, e, x.(ref := Minus1(x.ref))), h, Idle)
  }

  function StepGo(s: State, h: Handle): State
    requires Enabled(s, h, Go)
  {
    match s.pcs[h]
    case Fresh(inum) => DoGet(s, h, inum)
    case Loading(e) =>
      var x := s.entries[e];
      if x.valid || x.inum !in s.disk then At(s, h, Locked(e))
      else At(SetEntry(s, e, x.(valid := true, mem := s.disk[x.inum])), h, if s.disk[x.inum].kind == 0 then Panicked(e) else Locked(e))
    case Dirty(e) => At(SetDisk(s, s.entries[e].inum, s.entries[e].mem), h, Locked(e))
    case Drop1(e) =>
      var x := s.entries[e].(mem := Dinode(0, s.entries[e].mem.nlink, 0));
      At(SetDisk(SetEntry(s, e, x), x.inum, x.mem), h, Drop2(e))
    case Drop2(e) => At(SetEntry(s, e, s.entries[e].(valid := false)), h, Drop3(e))
    case Drop3(e) => s.(lock := s.lock[e := None], pcs := s.pcs[h := Drop4(e)])
    case Drop4(e) => At(SetEntry(s, e, s.entries[e].(ref := Minus1(s.entries[e].ref))), h, Idle)
    case _ => s
  }

  function Step(s: State, h: Handle, a: Act): State
    requires Enabled(s, h, a)
  {
    match a
    case Get(inum) => DoGet(s, h, inum)
    case Alloc(inum, kind) => At(SetDisk(s, inum, Dinode(kind, 0, 0)), h, Fresh(inum))
    case Dup(g) => At(SetEntry(s, s.pcs[h].e, s.entries[s.pcs[h].e].(ref := s.entries[s.pcs[h].e].ref + 1)), g, Ref(s.pcs[h].e))
      .(sure := if h in s.sure then s.sure + {g} else s.sure - {g})
    case Lock => s.(lock := s.lock[s.pcs[h].e := Some(h)], pcs := s.pcs[h := Loading(s.pcs[h].e)])
    case Unlock => s.(lock := s.lock[s.pcs[h].e := None], pcs := s.pcs[h := Ref(s.pcs[h].e)])
    case Write(d) => At(SetEntry(s, s.pcs[h].e, s.entries[s.pcs[h].e].(mem := d)), h, Dirty(s.pcs[h].e))
    case Put => DoPut(s, h, s.pcs[h].e)
    case Go => StepGo(s, h)
  }

  // ---------------------------------------------------------------- invariant

  ghost function RefSet(pcs: map<Handle, Pc>, e: nat): set<Handle> { set h | h in pcs && Refers(pcs[h]) && pcs[h].e == e }

  /** What the holder of a sleep-lock knows about its entry and the disk. */
  ghost predicate PcOk(s: State, pc: Pc) {
    && (pc.Fresh? ==> pc.inum in s.disk)
    && (Refers(pc) ==>
          && pc.e < |s.entries| && s.entries[pc.e].inum in s.disk
          && var x := s.entries[pc.e];
             && (pc.Locked? ==> x.valid && x.mem == s.disk[x.inum] && x.mem.kind != 0)
             && (pc.Dirty? ==> x.valid && x.mem.kind != 0 && s.disk[x.inum].kind != 0)
             && (pc.Loading? ==> AgreesIfValid(s, x))
             && (pc.Drop1? ==> x.valid && x.mem == s.disk[x.inum] && x.mem.kind != 0 && x.mem.nlink == 0)
             && (pc.Drop3? ==> !x.valid))
  }

  predicate AgreesIfValid(s: State, x: Entry) {
    x.valid ==> x.inum in s.disk && x.mem == s.disk[x.inum] && x.mem.kind != 0
  }

  ghost predicate LockOk(s: State) {
    && |s.lock| == |s.entries|
    && (forall e :: 0 <= e < |s.lock| && s.lock[e].Some? ==> s.lock[e].value in s.pcs && HasLock(s.pcs[s.lock[e].value]))
    && forall h, e :: h in s.pcs && 0 <= e < |s.lock| ==> (HasLock(s.pcs[h]) && s.pcs[h].e == e <==> s.lock[e] == Some(h))
  }

  ghost predicate EntriesOk(s: State) {
    && (forall e :: 0 <= e < |s.entries| ==> s.entries[e].ref == |RefSet(s.pcs, e)|)
    && (forall e, f :: 0 <= e < f < |s.entries| && s.entries[e].ref > 0 && s.entries[f].ref > 0 ==> s.entries[e].inum != s.entries[f].inum)
  }

  /** An unlocked valid entry agrees with the disk. */
  ghost predicate AgreeOk(s: State) {
    |s.lock| == |s.entries|
    && forall e :: 0 <= e < |s.entries| && s.entries[e].ref > 0 && s.lock[e].None? ==> AgreesIfValid(s, s.entries[e])
  }

  ghost predicate PcsOk(s: State) { forall h :: h in s.pcs ==> PcOk(s, s.pcs[h]) }

  ghost predicate Inv(s: State) { LockOk(s) && EntriesOk(s) && AgreeOk(s) && PcsOk(s) }

  // ---------------------------------------------------------------- references

  lemma RefSetMoved(pcs: map<Handle, Pc>, h: Handle, pc: Pc, e: nat)
    requires h in pcs
    ensures RefSet(pcs[h := pc], e) == RefSet(pcs, e) - {h} + (if Refers(pc) && pc.e == e then {h} else {})
    ensures h in RefSet(pcs, e) <==> Refers(pcs[h]) && pcs[h].e == e
  {
  }

  /** The counts after handle h moved to pc and the count of one entry changed with it. */
  lemma RefsKept(s: State, t: State, h: Handle)
    requires EntriesOk(s) && h in s.pcs && h in t.pcs && t.pcs == s.pcs[h := t.pcs[h]] && |t.entries| == |s.entries|
    requires forall e :: 0 <= e < |s.entries| ==>
      t.entries[e].ref - (if Refers(t.pcs[h]) && t.pcs[h].e == e then 1 else 0) == s.entries[e].ref - (if Refers(s.pcs[h]) && s.pcs[h].e == e then 1 else 0)
    requires forall e :: 0 <= e < |s.entries| && t.entries[e].ref > 0 && s.entries[e].ref > 0 ==> t.entries[e].inum == s.entries[e].inum
    requires forall e, f :: 0 <= e < |s.entries| && 0 <= f < |s.entries| && e != f && s.entries[e].ref == 0 && t.entries[e].ref > 0 && t.entries[f].ref > 0 ==>
      t.entries[e].inum != t.entries[f].inum
    ensures EntriesOk(t)
  {
    hide Refers;
    forall e | 0 <= e < |t.entries| ensures t.entries[e].ref == |RefSet(t.pcs, e)| {
      RefSetMoved(s.pcs, h, t.pcs[h], e);
    }
  }

  /** A handle's reference is counted. */
  lemma Counted(s: State, h: Handle)
    requires EntriesOk(s) && h in s.pcs && Refers(s.pcs[h]) && s.pcs[h].e < |s.entries|
    ensures s.entries[s.pcs[h].e].ref > 0
  {
    assert h in RefSet(s.pcs, s.pcs[h].e);
  }

  /** The only reference means no other handle. */
  lemma Alone(s: State, h: Handle, g: Handle)
    requires EntriesOk(s) && h in s.pcs && g in s.pcs && h != g && Refers(s.pcs[h]) && Refers(s.pcs[g])
    requires s.pcs[h].e == s.pcs[g].e < |s.entries|
    ensures s.entries[s.pcs[h].e].ref >= 2
  {
    var r := RefSet(s.pcs, s.pcs[h].e);
    assert h in r && g in r - {h};
    assert |r - {h}| > 0;
  }

  /** Two handles whose entries carry the same inum share the entry. */
  lemma SameEntry(s: State, h: Handle, g: Handle)
    requires EntriesOk(s) && h in s.pcs && g in s.pcs && Refers(s.pcs[h]) && Refers(s.pcs[g])
    requires s.pcs[h].e < |s.entries| && s.pcs[g].e < |s.entries| && s.entries[s.pcs[h].e].inum == s.entries[s.pcs[g].e].inum
    ensures s.pcs[h].e == s.pcs[g].e
  {
    Counted(s, h);
    Counted(s, g);
  }

  /** iput's acquiresleep under itable.lock never blocks: with one reference nobody holds the lock. */
  lemma NoBlockInIput(s: State, h: Handle)
    requires Inv(s) && h in s.pcs && s.pcs[h].Ref? && s.pcs[h].e < |s.entries| && s.entries[s.pcs[h].e].ref == 1
    ensures s.lock[s.pcs[h].e].None?
  {
    var e := s.pcs[h].e;
    if s.lock[e].Some? {
      Alone(s, h, s.lock[e].value);
    }
  }

  /** iget hands out the live entry of inum, or a slot that nobody refers to. */
  lemma GotSlot(s: State, inum: Id)
    requires Inv(s) && CanGet(s.entries, inum)
    ensures var e, t := Slot(s.entries, inum), Got(s.entries, inum);
      && |t| == |s.entries| && t[e].inum == inum && t[e].ref == s.entries[e].ref + 1
      && (forall f :: 0 <= f < |t| && f != e ==> t[f] == s.entries[f])
      && (if s.entries[e].ref > 0 then t[e] == s.entries[e].(ref := s.entries[e].ref + 1)
          else !t[e].valid && s.lock[e].None? && forall f :: 0 <= f < |t| && s.entries[f].ref > 0 ==> s.entries[f].inum != inum)
  {
    var e := Slot(s.entries, inum);
    if s.entries[e].ref == 0 && s.lock[e].Some? { Counted(s, s.lock[e].value); }
  }

  // ---------------------------------------------------------------- steps that keep the disk

  /** A step of h that leaves the disk and all entries but e alone, and keeps what others know of e. */
  lemma QuietInv(s: State, t: State, h: Handle, e: nat)
    requires Inv(s) && h in s.pcs && h in t.pcs && t.pcs == s.pcs[h := t.pcs[h]] && t.disk == s.disk && e < |s.entries|
    requires |t.entries| == |s.entries| == |t.lock| == |s.lock| && forall f :: 0 <= f < |s.entries| && f != e ==> t.entries[f] == s.entries[f]
    requires LockOk(t) && EntriesOk(t) && PcOk(t, t.pcs[h])
    requires forall f :: 0 <= f < |s.entries| && f != e && t.lock[f].None? ==> s.lock[f].None?
    requires t.entries[e].ref > 0 && t.lock[e].None? ==> AgreesIfValid(t, t.entries[e])
    requires forall g :: g in s.pcs && g != h && Refers(s.pcs[g]) && s.pcs[g].e == e ==> PcOk(t, s.pcs[g]) && t.entries[e].inum == s.entries[e].inum
    ensures Inv(t)
  {
    hide LockOk, EntriesOk, AgreesIfValid;
    forall g | g in t.pcs ensures PcOk(t, t.pcs[g]) {
      if g != h { assert PcOk(s, s.pcs[g]); if !(Refers(s.pcs[g]) && s.pcs[g].e == e) { PcKept(s, t, s.pcs[g]); } }
    }
    forall f | 0 <= f < |t.entries| && t.entries[f].ref > 0 && t.lock[f].None? ensures AgreesIfValid(t, t.entries[f]) {
      if f != e { assert AgreesIfValid(s, s.entries[f]); AgreeKept(s, t, s.entries[f]); }
    }
  }

  lemma AgreeKept(s: State, t: State, x: Entry)
    requires AgreesIfValid(s, x) && t.disk == s.disk
    ensures AgreesIfValid(t, x)
  {
  }

  lemma PcKept(s: State, t: State, pc: Pc)
    requires PcOk(s, pc) && t.disk == s.disk && |t.entries| == |s.entries| && (Refers(pc) ==> t.entries[pc.e] == s.entries[pc.e])
    ensures PcOk(t, pc)
  {
  }

  // ---------------------------------------------------------------- the sleep-locks

  /** h moved and the sleep-lock of e went with it; others are as before. */
  lemma LockMoved(s: State, t: State, h: Handle)
    requires LockOk(s) && h in s.pcs && h in t.pcs && t.pcs == s.pcs[h := t.pcs[h]] && |t.entries| == |s.entries| == |t.lock|
    requires HasLock(s.pcs[h]) && HasLock(t.pcs[h]) ==> t.pcs[h].e == s.pcs[h].e
    requires (HasLock(t.pcs[h]) ==> t.pcs[h].e < |s.lock|) && (HasLock(s.pcs[h]) ==> s.pcs[h].e < |s.lock|)
    requires t.lock ==
      if HasLock(t.pcs[h]) then s.lock[t.pcs[h].e := Some(h)]
      else if HasLock(s.pcs[h]) then s.lock[s.pcs[h].e := None]
      else s.lock
    requires HasLock(t.pcs[h]) && !HasLock(s.pcs[h]) ==> s.lock[t.pcs[h].e].None?
    ensures LockOk(t)
  {
    forall g, e | g in t.pcs && 0 <= e < |t.lock| ensures HasLock(t.pcs[g]) && t.pcs[g].e == e <==> t.lock[e] == Some(g) {
      assert g in s.pcs && (HasLock(s.pcs[g]) && s.pcs[g].e == e <==> s.lock[e] == Some(g));
      assert HasLock(s.pcs[h]) && s.pcs[h].e == e <==> s.lock[e] == Some(h);
    }
  }

  lemma LockSame(s: State, h: Handle, e: nat)
    requires LockOk(s) && h in s.pcs && HasLock(s.pcs[h]) && s.pcs[h].e == e < |s.lock|
    ensures s.lock[e] == Some(h) && s.lock[e := Some(h)] == s.lock
    ensures forall g :: g in s.pcs && g != h && HasLock(s.pcs[g]) ==> s.pcs[g].e != e
  {
  }

  // ---------------------------------------------------------------- each step

  lemma GetInv(s: State, h: Handle, inum: Id)
    requires Inv(s) && h in s.pcs && CanGet(s.entries, inum) && inum in s.disk && (s.pcs[h] == Fresh(inum) || s.pcs[h].Idle?)
    ensures Inv(DoGet(s, h, inum))
  {
    var t, e := DoGet(s, h, inum), Slot(s.entries, inum);
    GotSlot(s, inum);
    hide Got, Slot, CanGet, Secure;
    forall g | g in s.pcs && g != h && Refers(s.pcs[g]) && s.pcs[g].e == e ensures PcOk(t, s.pcs[g]) && t.entries[e].inum == s.entries[e].inum {
      assert PcOk(s, s.pcs[g]);
      Counted(s, g);
    }
    assert AgreeOk(s);
    hide AgreeOk, PcsOk;
    LockMoved(s, t, h);
    hide LockOk;
    RefsKept(s, t, h);
    hide EntriesOk;
    assert PcsOk(s) && AgreeOk(s) && EntriesOk(s) && LockOk(s);
    QuietInv(s, t, h, e);
  }

  lemma AllocInv(s: State, h: Handle, inum: Id, kind: nat)
    requires Inv(s) && h in s.pcs && s.pcs[h].Idle? && inum in s.disk && s.disk[inum].kind == 0 && kind != 0
    ensures Inv(At(SetDisk(s, inum, Dinode(kind, 0, 0)), h, Fresh(inum)))
  {
    var t := At(SetDisk(s, inum, Dinode(kind, 0, 0)), h, Fresh(inum));
    LockMoved(s, t, h);
    RefsKept(s, t, h);
    hide LockOk, EntriesOk;
    forall g | g in t.pcs ensures PcOk(t, t.pcs[g]) { assert g in s.pcs ==> PcOk(s, s.pcs[g]); }
    forall f | 0 <= f < |t.entries| && t.entries[f].ref > 0 && t.lock[f].None? ensures AgreesIfValid(t, t.entries[f]) {
      assert AgreesIfValid(s, s.entries[f]);
    }
  }

  function Updated(s: State, h: Handle, e: nat, d: Dinode, pc: Pc): State
    requires e < |s.entries|
  {
    At(SetDisk(SetEntry(s, e, s.entries[e].(mem := d)), s.entries[e].inum, d), h, pc)
  }

  ghost predicate MayUpdate(s: State, h: Handle, e: nat, d: Dinode, pc: Pc) {
    && h in s.pcs && e < |s.entries|
    && ((s.pcs[h] == Dirty(e) && pc == Locked(e) && d == s.entries[e].mem) || (s.pcs[h] == Drop1(e) && pc == Drop2(e) && d.kind == 0))
  }

  /** iupdate by the holder of the sleep-lock, or the freeing iupdate of iput. */
  lemma UpdateInv(s: State, h: Handle, e: nat, d: Dinode, pc: Pc)
    requires Inv(s) && MayUpdate(s, h, e, d, pc)
    ensures Inv(Updated(s, h, e, d, pc))
  {
    var t := Updated(s, h, e, d, pc);
    UpdateHolders(s, h, e, d, pc);
    hide LockOk, EntriesOk;
    forall g | g in t.pcs ensures PcOk(t, t.pcs[g]) { UpdatePc(s, h, e, d, pc, g); }
    forall f | 0 <= f < |t.entries| && t.entries[f].ref > 0 && t.lock[f].None? ensures AgreesIfValid(t, t.entries[f]) {
      UpdateAgree(s, h, e, d, pc, f);
    }
  }

  lemma UpdateHolders(s: State, h: Handle, e: nat, d: Dinode, pc: Pc)
    requires Inv(s) && MayUpdate(s, h, e, d, pc)
    ensures LockOk(Updated(s, h, e, d, pc)) && EntriesOk(Updated(s, h, e, d, pc)) && |s.lock| == |s.entries|
  {
    var t := Updated(s, h, e, d, pc);
    LockSame(s, h, e);
    LockMoved(s, t, h);
    hide LockOk;
    RefsKept(s, t, h);
  }

  lemma UpdatePc(s: State, h: Handle, e: nat, d: Dinode, pc: Pc, g: Handle)
    requires Inv(s) && MayUpdate(s, h, e, d, pc) && g in Updated(s, h, e, d, pc).pcs
    ensures PcOk(Updated(s, h, e, d, pc), Updated(s, h, e, d, pc).pcs[g])
  {
    assert PcOk(s, s.pcs[h]);
    hide LockOk, EntriesOk;
    if g != h { UpdateOther(s, h, e, d, g); }
  }

  lemma UpdateAgree(s: State, h: Handle, e: nat, d: Dinode, pc: Pc, f: nat)
    requires Inv(s) && MayUpdate(s, h, e, d, pc) && f < |s.entries| && s.entries[f].ref > 0 && s.lock[f].None?
    ensures AgreesIfValid(Updated(s, h, e, d, pc), Updated(s, h, e, d, pc).entries[f])
  {
    Counted(s, h);
    LockSame(s, h, e);
    hide LockOk, PcsOk;
    assert AgreesIfValid(s, s.entries[f]) && f != e;
  }

  lemma UpdateOther(s: State, h: Handle, e: nat, d: Dinode, g: Handle)
    requires Inv(s) && h in s.pcs && e < |s.entries| && g in s.pcs && g != h
    requires s.pcs[h] == Dirty(e) || (s.pcs[h] == Drop1(e) && d.kind == 0)
    requires s.pcs[h] == Dirty(e) ==> d == s.entries[e].mem
    ensures PcOk(SetDisk(SetEntry(s, e, s.entries[e].(mem := d)), s.entries[e].inum, d), s.pcs[g])
  {
    assert PcOk(s, s.pcs[h]) && PcOk(s, s.pcs[g]);
    LockSame(s, h, e);
    if Refers(s.pcs[g]) && s.entries[s.pcs[g].e].inum == s.entries[e].inum { SameEntry(s, h, g); }
  }

  /** Steps that only touch entry e in memory, its lock and the place of h. */
  ghost predicate Local(s: State, h: Handle, e: nat, x: Entry, pc: Pc) {
    && h in s.pcs && Refers(s.pcs[h]) && s.pcs[h].e == e < |s.entries| && x.inum == s.entries[e].inum && !pc.Fresh?
    && (Refers(pc) ==> pc.e == e && x.ref == s.entries[e].ref)
    && (!Refers(pc) ==> x.ref + 1 == s.entries[e].ref)
    && ((x.valid == s.entries[e].valid && x.mem == s.entries[e].mem) || HasLock(s.pcs[h]))
    && (HasLock(pc) && !HasLock(s.pcs[h]) ==> e < |s.lock| && s.lock[e].None?)
  }

  function Locally(s: State, h: Handle, e: nat, x: Entry, pc: Pc): State
    requires e < |s.entries| && e < |s.lock| && h in s.pcs
  {
    State(s.entries[e := x],
          if HasLock(pc) then s.lock[e := Some(h)] else if HasLock(s.pcs[h]) then s.lock[e := None] else s.lock,
          s.disk, s.pcs[h := pc], s.sure)
  }

  lemma LocalInv(s: State, h: Handle, e: nat, x: Entry, pc: Pc)
    requires Inv(s) && Local(s, h, e, x, pc) && PcOk(Locally(s, h, e, x, pc), pc)
    requires !HasLock(pc) && x.ref > 0 && (HasLock(s.pcs[h]) || s.lock[e].None?) ==> AgreesIfValid(s, x)
    ensures Inv(Locally(s, h, e, x, pc))
  {
    var t := Locally(s, h, e, x, pc);
    LocalHolders(s, h, e, x, pc);
    hide LockOk, EntriesOk, AgreeOk;
    forall g | g in s.pcs && g != h && Refers(s.pcs[g]) && s.pcs[g].e == e ensures PcOk(t, s.pcs[g]) && t.entries[e].inum == s.entries[e].inum {
      LocalOther(s, h, e, x, pc, g);
    }
    assert t.entries[e].ref > 0 && t.lock[e].None? ==> AgreesIfValid(t, t.entries[e]);
    hide PcOk, AgreesIfValid;
    QuietInv(s, t, h, e);
  }

  lemma LocalHolders(s: State, h: Handle, e: nat, x: Entry, pc: Pc)
    requires Inv(s) && Local(s, h, e, x, pc) && e < |s.lock|
    ensures LockOk(Locally(s, h, e, x, pc)) && EntriesOk(Locally(s, h, e, x, pc)) && |s.lock| == |s.entries|
    ensures HasLock(s.pcs[h]) ==> s.lock[e] == Some(h)
  {
    var t := Locally(s, h, e, x, pc);
    LockMoved(s, t, h);
    if HasLock(s.pcs[h]) { LockSame(s, h, e); }
    hide LockOk;
    RefsKept(s, t, h);
  }

  lemma LocalOther(s: State, h: Handle, e: nat, x: Entry, pc: Pc, g: Handle)
    requires Inv(s) && Local(s, h, e, x, pc) && e < |s.lock| && g in s.pcs && g != h && Refers(s.pcs[g]) && s.pcs[g].e == e
    ensures PcOk(Locally(s, h, e, x, pc), s.pcs[g])
  {
    assert PcOk(s, s.pcs[g]);
    if HasLock(s.pcs[h]) { LockSame(s, h, e); }
  }

  // ---------------------------------------------------------------- every step

  lemma DupInv(s: State, h: Handle, g: Handle)
    requires Inv(s) && Enabled(s, h, Dup(g))
    ensures Inv(Step(s, h, Dup(g)))
  {
    var t, e := Step(s, h, Dup(g)), s.pcs[h].e;
    assert PcOk(s, s.pcs[h]);
    Counted(s, h);
    LockMoved(s, t, g);
    RefsKept(s, t, g);
    forall x | x in s.pcs && x != g && Refers(s.pcs[x]) && s.pcs[x].e == e ensures PcOk(t, s.pcs[x]) && t.entries[e].inum == s.entries[e].inum {
      assert PcOk(s, s.pcs[x]);
    }
    assert t.entries[e].ref > 0 && t.lock[e].None? ==> AgreesIfValid(t, t.entries[e]);
    hide LockOk, EntriesOk;
    QuietInv(s, t, g, e);
  }

  /** What a handle may rely on. */
  lemma AtHandle(s: State, h: Handle)
    requires Inv(s) && h in s.pcs
    ensures PcOk(s, s.pcs[h]) && |s.lock| == |s.entries|
    ensures Refers(s.pcs[h]) ==> var e := s.pcs[h].e;
      && s.entries[e].ref > 0 && (HasLock(s.pcs[h]) ==> s.lock[e] == Some(h) && s.lock[e := Some(h)] == s.lock)
      && s.entries[e := s.entries[e]] == s.entries && (s.lock[e].None? ==> AgreesIfValid(s, s.entries[e]))
      && (s.pcs[h].Ref? && s.entries[e].ref == 1 ==> s.lock[e].None?)
  {
    assert PcOk(s, s.pcs[h]);
    if Refers(s.pcs[h]) {
      Counted(s, h);
      if HasLock(s.pcs[h]) { LockSame(s, h, s.pcs[h].e); }
      if s.pcs[h].Ref? && s.entries[s.pcs[h].e].ref == 1 { NoBlockInIput(s, h); }
    }
  }

  lemma LockInv(s: State, h: Handle, e: nat)
    requires Inv(s) && h in s.pcs && s.pcs[h] == Ref(e) && e < |s.entries| && e < |s.lock| && s.lock[e].None?
    ensures Inv(s.(lock := s.lock[e := Some(h)], pcs := s.pcs[h := Loading(e)]))
  {
    hide Inv;
    AtHandle(s, h);
    LocalInv(s, h, e, s.entries[e], Loading(e));
  }

  lemma UnlockInv(s: State, h: Handle, e: nat)
    requires Inv(s) && h in s.pcs && s.pcs[h] == Locked(e) && e < |s.entries| && e < |s.lock|
    ensures Inv(s.(lock := s.lock[e := None], pcs := s.pcs[h := Ref(e)]))
  {
    hide Inv;
    AtHandle(s, h);
    LocalInv(s, h, e, s.entries[e], Ref(e));
  }

  lemma WriteInv(s: State, h: Handle, e: nat, d: Dinode)
    requires Inv(s) && h in s.pcs && (s.pcs[h] == Locked(e) || s.pcs[h] == Dirty(e)) && e < |s.entries| && e < |s.lock| && d.kind != 0
    ensures Inv(At(SetEntry(s, e, s.entries[e].(mem := d)), h, Dirty(e)))
  {
    hide Inv;
    AtHandle(s, h);
    LocalInv(s, h, e, s.entries[e].(mem := d), Dirty(e));
  }

  lemma PutInv(s: State, h: Handle, e: nat)
    requires Inv(s) && h in s.pcs && s.pcs[h] == Ref(e) && e < |s.entries| && e < |s.lock|
    ensures Inv(DoPut(s, h, e))
  {
    hide Inv;
    AtHandle(s, h);
    var x := s.entries[e];
    if x.ref == 1 && x.valid && x.mem.nlink == 0 { LocalInv(s, h, e, x, Drop1(e)); }
    else { LocalInv(s, h, e, x.(ref := x.ref - 1), Idle); }
  }

  lemma LoadInv(s: State, h: Handle, e: nat)
    requires Inv(s) && Enabled(s, h, Go) && s.pcs[h] == Loading(e)
    ensures Inv(StepGo(s, h))
  {
    hide Inv;
    AtHandle(s, h);
    var x := s.entries[e];
    var pc := if !x.valid && s.disk[x.inum].kind == 0 then Panicked(e) else Locked(e);
    LocalInv(s, h, e, if x.valid then x else x.(valid := true, mem := s.disk[x.inum]), pc);
    assert s.entries[e := x] == s.entries;
  }

  lemma DropInv(s: State, h: Handle, e: nat)
    requires Inv(s) && Enabled(s, h, Go) && (s.pcs[h] == Drop2(e) || s.pcs[h] == Drop3(e) || s.pcs[h] == Drop4(e))
    ensures Inv(StepGo(s, h))
  {
    hide Inv;
    AtHandle(s, h);
    var x := s.entries[e];
    match s.pcs[h]
    case Drop2(_) => LocalInv(s, h, e, x.(valid := false), Drop3(e));
    case Drop3(_) => LocalInv(s, h, e, x, Drop4(e));
    case Drop4(_) => LocalInv(s, h, e, x.(ref := x.ref - 1), Idle);
  }

  lemma GoInv(s: State, h: Handle)
    requires Inv(s) && Enabled(s, h, Go)
    ensures Inv(StepGo(s, h))
  {
    hide Inv;
    AtHandle(s, h);
    match s.pcs[h]
    case Fresh(inum) => GetInv(s, h, inum);
    case Loading(e) => LoadInv(s, h, e);
    case Dirty(e) => UpdateInv(s, h, e, s.entries[e].mem, Locked(e)); assert s.entries[e := s.entries[e]] == s.entries;
    case Drop1(e) => UpdateInv(s, h, e, Dinode(0, s.entries[e].mem.nlink, 0), Drop2(e));
    case Drop2(e) => DropInv(s, h, e);
    case Drop3(e) => DropInv(s, h, e);
    case Drop4(e) => DropInv(s, h, e);
  }

  lemma StepInv(s: State, h: Handle, a: Act)
    requires Inv(s) && Enabled(s, h, a)
    ensures Inv(Step(s, h, a))
  {
    hide Inv, StepGo, DoPut, DoGet, CanGet;
    match a
    case Get(inum) => GetInv(s, h, inum);
    case Alloc(inum, kind) => AllocInv(s, h, inum, kind);
    case Dup(g) => DupInv(s, h, g);
    case Lock => LockInv(s, h, s.pcs[h].e);
    case Unlock => UnlockInv(s, h, s.pcs[h].e);
    case Write(d) => WriteInv(s, h, s.pcs[h].e, d);
    case Put => PutInv(s, h, s.pcs[h].e);
    case Go => GoInv(s, h);
  }

  // ---------------------------------------------------------------- runs

  ghost predicate Init(s: State) {
    && |s.lock| == |s.entries| && (forall e :: 0 <= e < |s.entries| ==> s.entries[e].ref == 0 && s.lock[e].None?)
    && (forall h :: h in s.pcs ==> s.pcs[h].Idle?) && s.sure == {}
  }

  ghost predicate Next(s: State, t: State) { exists h, a :: Moves(s, h, a, t) }
  ghost predicate Moves(s: State, h: Handle, a: Act, t: State) { Enabled(s, h, a) && t == Step(s, h, a) }

  ghost predicate IsRun(run: seq<State>) {
    |run| > 0 && Init(run[0]) && forall i :: 0 <= i < |run| - 1 ==> Next(run[i], run[i + 1])
  }

  lemma {:induction false} RunInv(run: seq<State>, i: nat)
    requires IsRun(run) && i < |run|
    ensures Inv(run[i])
    decreases i
  {
    if i == 0 {
      forall e | 0 <= e < |run[0].entries| ensures |RefSet(run[0].pcs, e)| == 0 { assert RefSet(run[0].pcs, e) == {}; }
    } else {
      RunInv(run, i - 1);
      hide Inv, Enabled, Step;
      assert Next(run[i - 1], run[i]);
      var h, a :| Moves(run[i - 1], h, a, run[i]);
      StepInv(run[i - 1], h, a);
    }
  }

  /** No two live entries have the same inum, and ref counts the outstanding references. */
  lemma LiveEntriesUnique(run: seq<State>, i: nat, e: nat, f: nat)
    requires IsRun(run) && i < |run| && e < |run[i].entries| && f < |run[i].entries|
    ensures run[i].entries[e].ref == |RefSet(run[i].pcs, e)|
    ensures e != f && run[i].entries[e].ref > 0 && run[i].entries[f].ref > 0 ==> run[i].entries[e].inum != run[i].entries[f].inum
  {
    RunInv(run, i);
  }

  /** An entry in use that is valid and not locked is the on-disk inode, also while an iput frees the
      inode and ialloc takes its number again; and so is one that somebody has locked and not changed. */
  lemma EntryAgrees(run: seq<State>, i: nat, e: nat)
    requires IsRun(run) && i < |run| && e < |run[i].entries| && run[i].entries[e].ref > 0 && run[i].entries[e].valid
    ensures var s, x := run[i], run[i].entries[e];
      && |s.lock| == |s.entries|
      && (s.lock[e].None? || (s.lock[e].value in s.pcs && s.pcs[s.lock[e].value].Locked?) ==>
            x.inum in s.disk && x.mem == s.disk[x.inum] && x.mem.kind != 0)
  {
    RunInv(run, i);
    hide EntriesOk;
    var s := run[i];
    if s.lock[e].Some? { assert PcOk(s, s.pcs[s.lock[e].value]); }
  }


  // ---------------------------------------------------------------- what reaches the disk

  /** Why the inode on disk changes in a step of h: ialloc marks a free one with the kind asked for and
      nothing else; iupdate writes what its caller, who has the sleep-lock, has in memory; or iput frees
      one without links. */
  ghost predicate DiskReason(s: State, h: Handle, a: Act, t: State, inum: Id)
    requires h in s.pcs && inum in s.disk && inum in t.disk
  {
    || (a.Alloc? && a.inum == inum && s.disk[inum].kind == 0 && t.disk[inum] == Dinode(a.kind, 0, 0) && h in t.pcs && t.pcs[h] == Fresh(inum))
    || (a.Go? && s.pcs[h].Dirty? && Has(s, h, inum) && t.disk[inum] == s.entries[s.pcs[h].e].mem)
    || (a.Go? && s.pcs[h].Drop1? && Has(s, h, inum) && s.disk[inum].nlink == 0 && t.disk[inum] == Dinode(0, 0, 0))
  }

  /** h refers to the inode and has its sleep-lock. */
  ghost predicate Has(s: State, h: Handle, inum: Id) {
    h in s.pcs && Refers(s.pcs[h]) && s.pcs[h].e < |s.entries| && s.pcs[h].e < |s.lock| && s.entries[s.pcs[h].e].inum == inum && s.lock[s.pcs[h].e] == Some(h)
  }

  /** The disk changes for these reasons only, and ialloc, iupdate and the freeing iput do change it. */
  lemma DiskStep(s: State, h: Handle, a: Act, inum: Id)
    requires Inv(s) && Enabled(s, h, a) && inum in s.disk
    ensures var t := Step(s, h, a);
      && t.disk.Keys == s.disk.Keys && (t.disk[inum] == s.disk[inum] || DiskReason(s, h, a, t, inum))
      && ((a.Alloc? && a.inum == inum) || (a.Go? && (s.pcs[h].Dirty? || s.pcs[h].Drop1?) && Has(s, h, inum)) ==> DiskReason(s, h, a, t, inum))
  {
    HolderHas(s, h);
    hide Inv, Got, Slot, CanGet, Secure;
  }

  lemma HolderHas(s: State, h: Handle)
    requires Inv(s) && h in s.pcs
    ensures Refers(s.pcs[h]) ==> s.pcs[h].e < |s.entries| && s.pcs[h].e < |s.lock| && s.entries[s.pcs[h].e].inum in s.disk
    ensures HasLock(s.pcs[h]) ==> s.lock[s.pcs[h].e] == Some(h)
    ensures s.pcs[h].Drop1? ==> s.entries[s.pcs[h].e].mem == s.disk[s.entries[s.pcs[h].e].inum] && s.entries[s.pcs[h].e].mem.nlink == 0
  {
    hide EntriesOk, AgreeOk;
    assert PcOk(s, s.pcs[h]);
  }

  /** Until its iupdate, what a caller has written in memory stays: nobody else touches a locked entry. */
  lemma WrittenStays(s: State, g: Handle, a: Act, h: Handle)
    requires Inv(s) && Enabled(s, g, a) && g != h && h in s.pcs && (s.pcs[h].Dirty? || s.pcs[h].Locked?) && !(a.Dup? && a.h == h)
    ensures var t, e := Step(s, g, a), s.pcs[h].e; h in t.pcs && t.pcs[h] == s.pcs[h] && e < |t.entries| && t.entries[e].mem == s.entries[e].mem
  {
    HolderHas(s, h);
    HolderHas(s, g);
    if a.Get? || (a.Go? && s.pcs[g].Fresh?) {
      var inum := if a.Get? then a.inum else s.pcs[g].inum;
      GotSlot(s, inum);
      Counted(s, h);
    }
    hide Inv, Got, Slot, CanGet, Secure;
  }

  /** What the caller writes is what its iupdate puts on disk. */
  lemma WriteReachesDisk(s: State, h: Handle, d: Dinode)
    requires Inv(s) && Enabled(s, h, Write(d))
    ensures var t, inum := Step(s, h, Write(d)), s.entries[s.pcs[h].e].inum;
      Enabled(t, h, Go) && inum in Step(t, h, Go).disk && Step(t, h, Go).disk[inum] == d
  {
    HolderHas(s, h);
    hide Inv;
  }

  /** iput of the last reference to a valid inode without links frees it on disk in its next step; every
      other iput gives up one reference. */
  lemma LastPutFrees(s: State, h: Handle)
    requires Inv(s) && Enabled(s, h, Put)
    ensures var x, t := s.entries[s.pcs[h].e], Step(s, h, Put);
      if x.ref == 1 && x.valid && x.mem.nlink == 0 then
        x.inum in s.disk && h in t.pcs && Enabled(t, h, Go) && x.inum in Step(t, h, Go).disk && Step(t, h, Go).disk[x.inum] == Dinode(0, 0, 0)
      else x.ref > 0 && h in t.pcs && t.pcs[h].Idle? && t.entries == s.entries[s.pcs[h].e := x.(ref := x.ref - 1)] && t.disk == s.disk
  {
    HolderHas(s, h);
    Counted(s, h);
    hide Inv;
  }

  /** iget gives its caller an entry of the number asked for, and ialloc's caller gets the number that was
      marked. */
  lemma GotNumber(s: State, h: Handle, a: Act)
    requires Inv(s) && Enabled(s, h, a) && (a.Get? || (a.Go? && s.pcs[h].Fresh?))
    ensures var t := Step(s, h, a);
      h in t.pcs && t.pcs[h].Ref? && t.pcs[h].e < |t.entries| && t.entries[t.pcs[h].e].inum == (if a.Get? then a.inum else s.pcs[h].inum)
  {
    GotSlot(s, if a.Get? then a.inum else s.pcs[h].inum);
    hide Inv, Got, Slot, CanGet, Secure;
  }

  /** Whoever refers to an entry refers to the same inode until it lets go. */
  lemma NumberStays(s: State, g: Handle, a: Act, h: Handle)
    requires Inv(s) && Enabled(s, g, a) && h in s.pcs && Refers(s.pcs[h])
    ensures var t := Step(s, g, a);
      h in t.pcs && (Refers(t.pcs[h]) ==> t.pcs[h].e == s.pcs[h].e && t.pcs[h].e < |t.entries| && t.entries[t.pcs[h].e].inum == s.entries[s.pcs[h].e].inum)
      && (!Refers(t.pcs[h]) ==> g == h && t.pcs[h].Idle? && (a.Put? || s.pcs[h].Drop4?))
  {
    HolderHas(s, h);
    HolderHas(s, g);
    if a.Get? || (a.Go? && s.pcs[g].Fresh?) {
      GetKeepsNumbers(s, g, a, h);
    }
    hide Inv, Got, Slot, CanGet, Secure, DoGet;
  }

  lemma GetKeepsNumbers(s: State, g: Handle, a: Act, h: Handle)
    requires Inv(s) && Enabled(s, g, a) && (a.Get? || (a.Go? && s.pcs[g].Fresh?)) && h in s.pcs && Refers(s.pcs[h]) && s.pcs[h].e < |s.entries|
    ensures var t := DoGet(s, g, if a.Get? then a.inum else s.pcs[g].inum);
      h in t.pcs && t.pcs[h] == s.pcs[h] && |t.entries| == |s.entries| && t.entries[s.pcs[h].e].inum == s.entries[s.pcs[h].e].inum
  {
    GotSlot(s, if a.Get? then a.inum else s.pcs[g].inum);
    Counted(s, h);
    hide Inv, Got, Slot, CanGet, Secure;
  }

  /** How many own steps ialloc, ilock, iupdate and iput still have to take. */
  function StepsLeft(pc: Pc): nat {
    match pc
    case Fresh(_) => 1
    case Loading(_) => 1
    case Dirty(_) => 1
    case Drop1(_) => 4
    case Drop2(_) => 3
    case Drop3(_) => 2
    case Drop4(_) => 1
    case _ => 0
  }

  /** Each of them takes exactly these, and nobody else adds to them. */
  lemma StepsGoDown(s: State, g: Handle, a: Act, h: Handle)
    requires Inv(s) && Enabled(s, g, a) && h in s.pcs && !(a.Dup? && a.h == h)
    ensures var t := Step(s, g, a);
      h in t.pcs && (g == h && a.Go? ==> StepsLeft(t.pcs[h]) + 1 == StepsLeft(s.pcs[h])) && (g != h ==> t.pcs[h] == s.pcs[h])
  {
    hide Inv, Got, Slot, CanGet, Secure;
  }

  /** ilock, iunlock and idup do what their callers rely on: the sleep-lock is taken and given back, and the
      duplicate refers to the same entry. */
  lemma HandleMoves(s: State, h: Handle, a: Act)
    requires Inv(s) && Enabled(s, h, a)
    ensures var t := Step(s, h, a);
      && (a.Lock? ==> h in t.pcs && t.pcs[h] == Loading(s.pcs[h].e) && |t.lock| == |s.lock| && t.lock[s.pcs[h].e] == Some(h))
      && (a.Unlock? ==> h in t.pcs && t.pcs[h] == Ref(s.pcs[h].e) && |t.lock| == |s.lock| && t.lock[s.pcs[h].e].None?)
      && (a.Dup? ==> a.h in t.pcs && t.pcs[a.h] == Ref(s.pcs[h].e) && |t.entries| == |s.entries| && t.entries[s.pcs[h].e].ref == s.entries[s.pcs[h].e].ref + 1)
      && (a.Go? && s.pcs[h].Loading? ==> h in t.pcs && (t.pcs[h].Locked? || t.pcs[h].Panicked?) && t.pcs[h].e == s.pcs[h].e)
  {
    HolderHas(s, h);
    hide Inv, Got, Slot, CanGet, Secure;
  }
}
