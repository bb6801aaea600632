/** The hashed buffer cache of xv6-lab-locks/bio.c as an interleaved step system. Every handle is
    one bread .. brelse; a process that holds several buffers is several handles. A step is one
    lock operation, one visit of a list node, or one update made under the locks. */
module BufferCache {
  import opened Common

  type Handle = nat
  type Data = seq<nat>

  /** The identity of a disk block. Boot-time buffers carry (0, 0). */
  datatype Key = Key(dev: nat, blk: nat)

  datatype Buf = Buf(key: Key, refcnt: nat, valid: bool, time: nat, data: Data, next: int)

  /** A place whose next pointer the scan looks at: a bucket head or a buffer. */
  datatype Ptr = Head(i: nat) | Node(b: int)

  /** The victim found so far: bucket o, its position q there, the pointer before it, its time. */
  datatype Best = NoBest | Best(o: nat, q: nat, before: Ptr, v: int, time: nat)

  /** Where a handle is, with the locals of bget. j counts visited nodes; own is the bucket whose
      lock the scan keeps (-1 for none); seen lists the times of the free buffers it met. */
  datatype Pc =
    | Idle
    | First(key: Key)
    | Walk1(key: Key, j: nat, b: int)
    | Hit1(key: Key, b: int)
    | Miss1(key: Key)
    | WantAll(key: Key)
    | Walk2(key: Key, j: nat, b: int)
    | Hit2(key: Key, b: int)
    | Hit2Counted(key: Key, b: int)
    | Hit2Done(key: Key, b: int)
    | ScanNext(key: Key, i: nat, best: Best, own: int, seen: seq<nat>)
    | Scan(key: Key, i: nat, best: Best, own: int, seen: seq<nat>, flag: bool, j: nat, p: Ptr)
    | Panicked
    | Chosen(key: Key, best: Best, own: int, seen: seq<nat>)
    | Unlinked(key: Key, v: int, own: int, time: nat, seen: seq<nat>)
    | Gap(key: Key, v: int, time: nat, seen: seq<nat>)
    | Relock(key: Key, v: int, time: nat, seen: seq<nat>)
    | Claim(key: Key, v: int, time: nat, seen: seq<nat>)
    | Claimed(key: Key, b: int)
    | ClaimedFree(key: Key, b: int)
    | SleepWait(key: Key, b: int)
    | Locked(key: Key, b: int)
    | Held(key: Key, b: int)
    | Release(key: Key, b: int)
    | ReleaseCounted(key: Key, i: nat)
    | Pin(key: Key, b: int, up: bool)
    | PinCounted(key: Key, b: int)

  /** lists, at, pins, truth and stray are history variables: the chain of each bucket, the bucket of each
      buffer (-1 while it is on no list), the pins of each buffer, the last contents written, and the
      blocks whose last reference was dropped while the disk was behind, until they are written again. */
  datatype State = State(
    bufs: seq<Buf>, head: seq<int>, block: seq<Option<Handle>>, global: Option<Handle>,
    sleep: seq<Option<Handle>>, disk: map<Key, Data>, ticks: nat, pcs: map<Handle, Pc>,
    lists: seq<seq<int>>, at: seq<int>, pins: seq<nat>, truth: map<Key, Data>, stray: set<Key>)

  function Get(m: map<Key, Data>, k: Key): Data { if k in m then m[k] else [] }

  function Hash(s: State, k: Key): nat requires |s.head| > 0 { k.blk % |s.head| }

  predicate IsBuf(s: State, b: int) { 0 <= b < |s.bufs| }

  function NextOf(s: State, p: Ptr): int {
    match p
    case Head(i) => if i < |s.head| then s.head[i] else -1
    case Node(b) => if IsBuf(s, b) then s.bufs[b].next else -1
  }

  function ElemAt(l: seq<int>, j: nat): int { if j < |l| then l[j] else -1 }

  /** The pointer whose next field leads to position j of the list of bucket i. */
  function PtrAt(s: State, i: nat, j: nat): Ptr
    requires i < |s.lists|
  {
    if j == 0 || j > |s.lists[i]| then Head(i) else Node(s.lists[i][j - 1])
  }

  // ---------------------------------------------------------------- what a pc holds

  predicate IsGlobal(pc: Pc) {
    pc.Walk2? || pc.Hit2? || pc.Hit2Counted? || pc.Hit2Done? || pc.ScanNext? || pc.Scan? || pc.Panicked?
    || pc.Chosen? || pc.Unlinked? || pc.Gap? || pc.Relock? || pc.Claim? || pc.Claimed? || pc.ClaimedFree?
  }

  function OwnSet(own: int): set<int> { if own >= 0 then {own} else {} }

  /** The bucket locks held at a pc, for n buckets. */
  function Buckets(pc: Pc, n: nat): set<int>
    requires n > 0
  {
    match pc
    case Walk1(key, _, _) => {key.blk % n}
    case Hit1(key, _) => {key.blk % n}
    case Miss1(key) => {key.blk % n}
    case Hit2Counted(key, _) => {key.blk % n}
    case ScanNext(_, _, _, own, _) => OwnSet(own)
    case Scan(_, i, _, own, _, _, _, _) => {i} + OwnSet(own)
    case Chosen(_, _, own, _) => OwnSet(own)
    case Unlinked(_, _, own, _, _) => {own}
    case Relock(key, _, _, _) => {key.blk % n}
    case Claim(key, _, _, _) => {key.blk % n}
    case Claimed(key, _) => {key.blk % n}
    case ReleaseCounted(_, i) => {i}
    case PinCounted(key, _) => {key.blk % n}
    case _ => {}
  }

  /** The buffer whose sleep-lock is held at a pc, or -1. */
  function SleepOf(pc: Pc): int {
    match pc
    case Locked(_, b) => b
    case Held(_, b) => b
    case Pin(_, b, _) => b
    case PinCounted(_, b) => b
    case _ => -1
  }

  /** The buffer on which the handle owns a reference, or -1. */
  function RefOf(pc: Pc): int {
    match pc
    case Hit1(_, b) => b
    case Hit2Counted(_, b) => b
    case Hit2Done(_, b) => b
    case Claimed(_, b) => b
    case ClaimedFree(_, b) => b
    case SleepWait(_, b) => b
    case Release(_, b) => b
    case _ => SleepOf(pc)
  }

  predicate HasRef(pc: Pc) {
    pc.Hit1? || pc.Hit2Counted? || pc.Hit2Done? || pc.Claimed? || pc.ClaimedFree? || pc.SleepWait? || pc.Locked?
    || pc.Held? || pc.Release? || pc.Pin? || pc.PinCounted?
  }

  /** The buffer that is being moved between buckets or re-labelled, or -1. */
  function VictimOf(pc: Pc): int {
    match pc
    case Unlinked(_, v, _, _, _) => v
    case Gap(_, v, _, _) => v
    case Relock(_, v, _, _) => v
    case Claim(_, v, _, _) => v
    case _ => -1
  }

  // ---------------------------------------------------------------- invariant

  ghost predicate Shape(s: State) {
    && |s.head| > 0 && |s.block| == |s.head| && |s.lists| == |s.head|
    && |s.sleep| == |s.bufs| && |s.at| == |s.bufs| && |s.pins| == |s.bufs|
  }

  /** Each lock has the one holder that the program counters say. */
  ghost predicate LocksOk(s: State)
    requires Shape(s)
  {
    && (forall i :: 0 <= i < |s.block| && s.block[i].Some? ==> s.block[i].value in s.pcs)
    && (forall h, i :: h in s.pcs && 0 <= i < |s.block| ==>
          (i in Buckets(s.pcs[h], |s.head|) <==> s.block[i] == Some(h)))
    && (s.global.Some? ==> s.global.value in s.pcs)
    && (forall h :: h in s.pcs ==> (IsGlobal(s.pcs[h]) <==> s.global == Some(h)))
    && (forall b :: 0 <= b < |s.sleep| && s.sleep[b].Some? ==> s.sleep[b].value in s.pcs)
    && (forall h, b :: h in s.pcs && 0 <= b < |s.sleep| ==> (SleepOf(s.pcs[h]) == b <==> s.sleep[b] == Some(h)))
  }

  ghost predicate ChainOk(s: State, i: nat)
    requires i < |s.head| && i < |s.lists|
  {
    var l := s.lists[i];
    && s.head[i] == ElemAt(l, 0)
    && forall j :: 0 <= j < |l| ==> IsBuf(s, l[j]) && s.bufs[l[j]].next == ElemAt(l, j + 1)
  }

  /** The next pointers form the bucket chains; a buffer is on at most one chain, once. */
  ghost predicate ListsOk(s: State)
    requires Shape(s)
  {
    && (forall i :: 0 <= i < |s.lists| ==> ChainOk(s, i))
    && (forall i, j :: 0 <= i < |s.lists| && 0 <= j < |s.lists[i]| && IsBuf(s, s.lists[i][j]) ==> s.at[s.lists[i][j]] == i)
    && (forall i, j, k :: 0 <= i < |s.lists| && 0 <= j < k < |s.lists[i]| ==> s.lists[i][j] != s.lists[i][k])
    && forall b :: IsBuf(s, b) ==> s.at[b] == -1 || (0 <= s.at[b] < |s.lists| && b in s.lists[s.at[b]])
  }

  /** b is in the hands of the global-lock holder. */
  ghost predicate InHands(s: State, b: int) {
    s.global.Some? && s.global.value in s.pcs && VictimOf(s.pcs[s.global.value]) == b
  }

  /** Outside the hand-over every buffer of a real block sits in the bucket of its block. */
  ghost predicate PlaceOk(s: State)
    requires Shape(s)
  {
    forall b :: IsBuf(s, b) ==>
      && (s.at[b] == -1 ==> InHands(s, b))
      && (s.bufs[b].key.dev != 0 && !InHands(s, b) ==> s.at[b] == Hash(s, s.bufs[b].key))
      && (s.bufs[b].refcnt > 0 ==> s.bufs[b].key.dev != 0 && !InHands(s, b))
  }

  /** No two buffers carry the same block of a real device. */
  ghost predicate UniqueOk(s: State) {
    forall b, c :: IsBuf(s, b) && IsBuf(s, c) && s.bufs[b].key == s.bufs[c].key && s.bufs[b].key.dev != 0 ==> b == c
  }

  ghost function RefSet(pcs: map<Handle, Pc>, b: int): set<Handle> {
    set h | h in pcs && RefOf(pcs[h]) == b
  }

  /** refcnt counts the handles that own a reference, plus the pins. */
  ghost predicate RefsOk(s: State)
    requires Shape(s)
  {
    forall b :: IsBuf(s, b) ==> s.bufs[b].refcnt == |RefSet(s.pcs, b)| + s.pins[b]
  }

  /** Of the blocks that are not stray: a valid buffer shows the last contents written, a block without
      one is up to date on disk, and a buffer that nobody refers to is clean. */
  ghost predicate DataOk(s: State) {
    && (forall b :: IsBuf(s, b) && s.bufs[b].valid && s.bufs[b].key.dev != 0 && s.bufs[b].key !in s.stray ==>
          && s.bufs[b].data == Get(s.truth, s.bufs[b].key)
          && (s.bufs[b].refcnt == 0 ==> Get(s.disk, s.bufs[b].key) == s.bufs[b].data))
    && forall k: Key :: k.dev != 0 && !Cached(s, k) && k !in s.stray ==> Get(s.disk, k) == Get(s.truth, k)
  }

  ghost predicate Cached(s: State, k: Key) {
    exists b :: IsBuf(s, b) && s.bufs[b].valid && s.bufs[b].key == k
  }

  ghost predicate NoMatch(s: State, key: Key) {
    forall b :: IsBuf(s, b) ==> s.bufs[b].key != key
  }

  ghost predicate NoMatchBefore(s: State, key: Key, j: nat)
    requires Shape(s)
  {
    var l := s.lists[Hash(s, key)];
    j <= |l| && forall k :: 0 <= k < j ==> IsBuf(s, l[k]) && s.bufs[l[k]].key != key
  }

  ghost predicate SeenOk(time: nat, seen: seq<nat>) { forall x :: x in seen ==> time <= x }

  /** The candidate is still free, still where it was found, and no later than any free buffer seen. */
  ghost predicate BestOk(s: State, best: Best, seen: seq<nat>)
    requires Shape(s)
  {
    match best
    case NoBest => seen == []
    case Best(o, q, before, v, time) =>
      && o < |s.lists| && q < |s.lists[o]| && s.lists[o][q] == v && before == PtrAt(s, o, q)
      && IsBuf(s, v) && s.bufs[v].refcnt == 0 && s.bufs[v].time == time && SeenOk(time, seen)
  }

  ghost predicate VictimOk(s: State, key: Key, v: int, time: nat, seen: seq<nat>)
    requires Shape(s)
  {
    NoMatch(s, key) && IsBuf(s, v) && s.bufs[v].refcnt == 0 && s.bufs[v].time == time && SeenOk(time, seen)
  }

  ghost predicate PcOk(s: State, pc: Pc)
    requires Shape(s)
  {
    && (!pc.Idle? && !pc.Panicked? ==> pc.key.dev != 0)
    && (HasRef(pc) ==> IsBuf(s, RefOf(pc)) && s.bufs[RefOf(pc)].key == pc.key)
    && match pc
       case Walk1(key, j, b) => NoMatchBefore(s, key, j) && b == ElemAt(s.lists[Hash(s, key)], j)
       case Walk2(key, j, b) => NoMatchBefore(s, key, j) && b == ElemAt(s.lists[Hash(s, key)], j)
       case Hit2(key, b) => IsBuf(s, b) && s.bufs[b].key == key && s.at[b] == Hash(s, key)
       case ScanNext(key, i, best, own, seen) =>
         && NoMatch(s, key) && i <= |s.head| && BestOk(s, best, seen)
         && (if best.NoBest? then own == -1 else own == best.o && own < i)
       case Scan(key, i, best, own, seen, flag, j, p) =>
         && NoMatch(s, key) && i < |s.head| && BestOk(s, best, seen) && j <= |s.lists[i]| && p == PtrAt(s, i, j)
         && own < i && -1 <= own
         && (flag ==> best.Best? && best.o == i && best.q < j)
         && (!flag ==> if best.NoBest? then own == -1 else own == best.o)
       case Chosen(key, best, own, seen) => NoMatch(s, key) && best.Best? && BestOk(s, best, seen) && own == best.o
       case Unlinked(key, v, own, time, seen) => VictimOk(s, key, v, time, seen) && s.at[v] == -1 && 0 <= own < |s.head|
       case Gap(key, v, time, seen) => VictimOk(s, key, v, time, seen) && s.at[v] == -1
       case Relock(key, v, time, seen) => VictimOk(s, key, v, time, seen) && s.at[v] == -1
       case Claim(key, v, time, seen) => VictimOk(s, key, v, time, seen) && s.at[v] == Hash(s, key)
       case Held(_, b) => s.bufs[b].valid
       case Pin(_, b, up) => s.bufs[b].valid && (!up ==> s.pins[b] > 0)
       case PinCounted(_, b) => s.bufs[b].valid
       case ReleaseCounted(_, i) => i < |s.head|
       case _ => true
  }

  ghost predicate PcsOk(s: State)
    requires Shape(s)
  {
    forall h :: h in s.pcs ==> PcOk(s, s.pcs[h])
  }

  ghost predicate Inv(s: State) {
    Shape(s) && LocksOk(s) && ListsOk(s) && PlaceOk(s) && UniqueOk(s) && RefsOk(s) && DataOk(s) && PcsOk(s)
  }

  // ---------------------------------------------------------------- steps

  /** What the caller of the cache may ask of a handle; Go lets it take its next step. */
  datatype Action = Call(key: Key) | Go | SetData(d: Data) | WriteBack | DoRelease | DoPin | DoUnpin

  function At(s: State, h: Handle, pc: Pc): State { s.(pcs := s.pcs[h := pc]) }

  function SetBuf(s: State, b: int, x: Buf): State
    requires IsBuf(s, b)
  {
    s.(bufs := s.bufs[b := x])
  }

  function Lock(s: State, h: Handle, i: int): State
    requires 0 <= i < |s.block|
  {
    s.(block := s.block[i := Some(h)])
  }

  function Unlock(s: State, i: int): State
    requires 0 <= i < |s.block|
  {
    s.(block := s.block[i := None])
  }

  /** before_ans->next = ans->next, where ans is at position q of bucket o. */
  function Unlink(s: State, o: nat, q: nat, before: Ptr, v: int): State
    requires Shape(s) && o < |s.lists| && q < |s.lists[o]| && IsBuf(s, v)
    requires before.Head? ==> before.i < |s.head|
    requires before.Node? ==> IsBuf(s, before.b)
  {
    var n := s.bufs[v].next;
    var s1 := match before
      case Head(i) => s.(head := s.head[i := n])
      case Node(b) => s.(bufs := s.bufs[b := s.bufs[b].(next := n)]);
    s1.(lists := s.lists[o := s.lists[o][..q] + s.lists[o][q + 1..]], at := s.at[v := -1])
  }

  /** ans->next = bucket[index].next; bucket[index].next = ans. */
  function LinkHead(s: State, i: nat, v: int): State
    requires Shape(s) && i < |s.lists| && IsBuf(s, v)
  {
    s.(bufs := s.bufs[v := s.bufs[v].(next := s.head[i])], head := s.head[i := v],
       lists := s.lists[i := [v] + s.lists[i]], at := s.at[v := i])
  }

  /** The candidate after the scan looked at the buffer c at position j of bucket i. */
  function Consider(s: State, best: Best, i: nat, j: nat, p: Ptr, c: int): Best
    requires IsBuf(s, c)
  {
    var x := s.bufs[c];
    if x.refcnt == 0 && (best.NoBest? || x.time < best.time) then Best(i, j, p, c, x.time) else best
  }

  /** The step may be taken: a lock that is asked for is free, and the caller obeys its contract (only
      the sleep-lock holder touches a buffer). */
  predicate Enabled(s: State, h: Handle, a: Action)
    requires |s.head| > 0 && |s.block| == |s.head|
  {
    h in s.pcs &&
    match s.pcs[h]
    case Idle => a.Call? && a.key.dev != 0
    case First(key) => a.Go? && s.block[Hash(s, key)].None?
    case WantAll(key) => a.Go? && s.global.None?
    case Hit2(key, _) => a.Go? && s.block[Hash(s, key)].None?
    case ScanNext(_, i, _, _, _) => a.Go? && (i < |s.head| ==> s.block[i].None?)
    case Panicked => false
    case Gap(key, _, _, _) => a.Go? && s.block[Hash(s, key)].None?
    case SleepWait(_, b) => a.Go? && 0 <= b < |s.sleep| && s.sleep[b].None?
    case Held(_, b) =>
      && 0 <= b < |s.pins| && !a.Call? && !a.Go? && (a.DoUnpin? ==> s.pins[b] > 0)
    case Release(key, b) => a.Go? && s.block[Hash(s, key)].None? && IsBuf(s, b)
    case Pin(key, _, up) => a.Go? && s.block[Hash(s, key)].None?
    case _ => a.Go?
  }

  predicate InLookup(pc: Pc) {
    pc.Idle? || pc.First? || pc.Walk1? || pc.Hit1? || pc.Miss1? || pc.WantAll? || pc.Walk2? || pc.Hit2?
    || pc.Hit2Counted? || pc.Hit2Done?
  }

  predicate InScan(pc: Pc) { pc.ScanNext? || pc.Scan? }

  predicate InMove(pc: Pc) {
    pc.Chosen? || pc.Unlinked? || pc.Gap? || pc.Relock? || pc.Claim? || pc.Claimed? || pc.ClaimedFree?
  }

  /** The two lookups of bget: under the bucket lock, then under the global lock only. */
  function StepLookup(s: State, h: Handle, a: Action): State
    requires Shape(s) && Enabled(s, h, a) && PcOk(s, s.pcs[h]) && InLookup(s.pcs[h])
  {
    match s.pcs[h]
    case Idle => At(s, h, First(a.key))
    case First(key) =>
      At(Lock(s, h, Hash(s, key)), h, Walk1(key, 0, NextOf(s, Head(Hash(s, key)))))
    case Walk1(key, j, b) =>
      if !IsBuf(s, b) then At(s, h, Miss1(key))
      else if s.bufs[b].key == key then
        At(SetBuf(s, b, s.bufs[b].(refcnt := s.bufs[b].refcnt + 1)), h, Hit1(key, b))
      else At(s, h, Walk1(key, j + 1, s.bufs[b].next))
    case Hit1(key, b) => At(Unlock(s, Hash(s, key)), h, SleepWait(key, b))
    case Miss1(key) => At(Unlock(s, Hash(s, key)), h, WantAll(key))
    case WantAll(key) =>
      At(s.(global := Some(h)), h, Walk2(key, 0, NextOf(s, Head(Hash(s, key)))))
    case Walk2(key, j, b) =>
      if !IsBuf(s, b) then At(s, h, ScanNext(key, 0, NoBest, -1, []))
      else if s.bufs[b].key == key then At(s, h, Hit2(key, b))
      else At(s, h, Walk2(key, j + 1, s.bufs[b].next))
    case Hit2(key, b) =>
      At(SetBuf(Lock(s, h, Hash(s, key)), b, s.bufs[b].(refcnt := s.bufs[b].refcnt + 1)), h, Hit2Counted(key, b))
    case Hit2Counted(key, b) => At(Unlock(s, Hash(s, key)), h, Hit2Done(key, b))
    case Hit2Done(key, b) => At(s.(global := None), h, SleepWait(key, b))
  }

  /** The scan for the least recently used free buffer. */
  function StepScan(s: State, h: Handle): State
    requires Shape(s) && h in s.pcs && PcOk(s, s.pcs[h]) && InScan(s.pcs[h])
  {
    match s.pcs[h]
    case ScanNext(key, i, best, own, seen) =>
      if i < |s.head| then At(Lock(s, h, i), h, Scan(key, i, best, own, seen, false, 0, Head(i)))
      else if best.NoBest? then At(s, h, Panicked)
      else At(s, h, Chosen(key, best, own, seen))
    case Scan(key, i, best, own, seen, flag, j, p) =>
      var c := NextOf(s, p);
      if IsBuf(s, c) then
        var best' := Consider(s, best, i, j, p, c);
        var seen' := if s.bufs[c].refcnt == 0 then seen + [s.bufs[c].time] else seen;
        At(s, h, Scan(key, i, best', own, seen', flag || best' != best, j + 1, Node(c)))
      else if flag then
        At(if own >= 0 then Unlock(s, own) else s, h, ScanNext(key, i + 1, best, i, seen))
      else At(Unlock(s, i), h, ScanNext(key, i + 1, best, own, seen))
  }

  /** Moving the victim to its new bucket and re-labelling it. */
  function StepMove(s: State, h: Handle): State
    requires Shape(s) && h in s.pcs && PcOk(s, s.pcs[h]) && InMove(s.pcs[h]) && ListsOk(s)
  {
    match s.pcs[h]
    case Chosen(key, best, own, seen) =>
      if own != Hash(s, key) then
        assert ChainOk(s, best.o);
        At(Unlink(s, best.o, best.q, best.before, best.v), h, Unlinked(key, best.v, own, best.time, seen))
      else At(s, h, Claim(key, best.v, best.time, seen))
    case Unlinked(key, v, own, time, seen) => At(Unlock(s, own), h, Gap(key, v, time, seen))
    case Gap(key, v, time, seen) => At(Lock(s, h, Hash(s, key)), h, Relock(key, v, time, seen))
    case Relock(key, v, time, seen) => At(LinkHead(s, Hash(s, key), v), h, Claim(key, v, time, seen))
    case Claim(key, v, _, _) =>
      At(SetBuf(s, v, s.bufs[v].(key := key, refcnt := 1, valid := false)), h, Claimed(key, v))
    case Claimed(key, b) => At(Unlock(s, Hash(s, key)), h, ClaimedFree(key, b))
    case ClaimedFree(key, b) => At(s.(global := None), h, SleepWait(key, b))
  }

  /** bread after bget, and the caller's use of the buffer: bwrite, brelse, bpin, bunpin. */
  function StepUse(s: State, h: Handle, a: Action): State
    requires Shape(s) && Enabled(s, h, a) && PcOk(s, s.pcs[h])
    requires !InLookup(s.pcs[h]) && !InScan(s.pcs[h]) && !InMove(s.pcs[h])
  {
    match s.pcs[h]
    case SleepWait(key, b) => At(s.(sleep := s.sleep[b := Some(h)]), h, Locked(key, b))
    case Locked(key, b) =>
      if s.bufs[b].valid then At(s, h, Held(key, b))
      else At(SetBuf(s, b, s.bufs[b].(data := Get(s.disk, key), valid := true)), h, Held(key, b))
    case Held(key, b) =>
      (match a
       case SetData(d) => SetBuf(s, b, s.bufs[b].(data := d)).(truth := s.truth[key := d], stray := s.stray - {key})
       case WriteBack =>
         s.(disk := s.disk[key := s.bufs[b].data], stray := if s.bufs[b].data == Get(s.truth, key) then s.stray - {key} else s.stray)
       case DoRelease => At(s.(sleep := s.sleep[b := None]), h, Release(key, b))
       case DoPin => At(s, h, Pin(key, b, true))
       case DoUnpin => At(s, h, Pin(key, b, false))
       case _ => s)
    case Release(key, b) =>
      At(SetBuf(Lock(s, h, Hash(s, key)), b, Dropped(s.bufs[b], s.ticks)), h, ReleaseCounted(key, Hash(s, key)))
        .(stray := if s.bufs[b].refcnt == 1 && s.bufs[b].data != Get(s.disk, key) then s.stray + {key} else s.stray)
    case ReleaseCounted(_, i) => At(Unlock(s, i), h, Idle)
    case Pin(key, b, up) =>
      var x := s.bufs[b];
      var y := x.(refcnt := if up then x.refcnt + 1 else Minus1(x.refcnt));
      var n := if up then s.pins[b] + 1 else Minus1(s.pins[b]);
      At(SetBuf(Lock(s, h, Hash(s, key)), b, y).(pins := s.pins[b := n]), h, PinCounted(key, b))
    case PinCounted(key, b) => At(Unlock(s, Hash(s, key)), h, Held(key, b))
    case _ => s
  }

  /** b->refcnt--; a buffer that becomes free records the time. */
  function Dropped(x: Buf, now: nat): Buf {
    if x.refcnt == 1 then x.(refcnt := 0, time := now) else x.(refcnt := Minus1(x.refcnt))
  }

  /** The state after handle h takes its step. */
  function Step(s: State, h: Handle, a: Action): State
    requires Shape(s) && ListsOk(s) && Enabled(s, h, a) && PcOk(s, s.pcs[h])
  {
    if InLookup(s.pcs[h]) then StepLookup(s, h, a)
    else if InScan(s.pcs[h]) then StepScan(s, h)
    else if InMove(s.pcs[h]) then StepMove(s, h)
    else StepUse(s, h, a)
  }
}
