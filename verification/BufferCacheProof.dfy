/** Every step of the buffer cache keeps its invariant. */
module BufferCacheProof {
  import opened Common
  import opened BufferCache

  // ---------------------------------------------------------------- locks

  function Holder(mine: bool, was: Option<Handle>, h: Handle): Option<Handle> {
    if mine then Some(h) else if was == Some(h) then None else was
  }

  /** The locks after h moved to pc': it holds what pc' says, and took only free ones. */
  ghost predicate LocksMoved(s: State, t: State, h: Handle)
    requires Shape(s) && Shape(t)
  {
    && h in s.pcs && h in t.pcs && t.pcs == s.pcs[h := t.pcs[h]]
    && |t.block| == |s.block| && |t.sleep| == |s.sleep| && |t.head| == |s.head|
    && (forall i :: 0 <= i < |s.block| ==>
          && t.block[i] == Holder(i in Buckets(t.pcs[h], |s.head|), s.block[i], h)
          && (i in Buckets(t.pcs[h], |s.head|) ==> s.block[i].None? || s.block[i] == Some(h)))
    && t.global == Holder(IsGlobal(t.pcs[h]), s.global, h)
    && (IsGlobal(t.pcs[h]) ==> s.global.None? || s.global == Some(h))
    && (forall b :: 0 <= b < |s.sleep| ==>
          && t.sleep[b] == Holder(SleepOf(t.pcs[h]) == b, s.sleep[b], h)
          && (SleepOf(t.pcs[h]) == b ==> s.sleep[b].None? || s.sleep[b] == Some(h)))
  }

  lemma LocksKept(s: State, t: State, h: Handle)
    requires Shape(s) && Shape(t) && LocksOk(s) && LocksMoved(s, t, h)
    ensures LocksOk(t)
  {
    hide Buckets, IsGlobal, SleepOf;
    forall g, i | g in t.pcs && 0 <= i < |t.block|
      ensures i in Buckets(t.pcs[g], |t.head|) <==> t.block[i] == Some(g)
    {
      if g != h { assert g in s.pcs && (i in Buckets(s.pcs[g], |s.head|) <==> s.block[i] == Some(g)); }
    }
    forall g, b | g in t.pcs && 0 <= b < |t.sleep| ensures SleepOf(t.pcs[g]) == b <==> t.sleep[b] == Some(g) {
      if g != h { assert g in s.pcs && (SleepOf(s.pcs[g]) == b <==> s.sleep[b] == Some(g)); }
    }
    forall g | g in t.pcs ensures IsGlobal(t.pcs[g]) <==> t.global == Some(g) {
      if g != h { assert IsGlobal(s.pcs[g]) <==> s.global == Some(g); }
    }
  }

  // ---------------------------------------------------------------- references

  lemma RefSetMoved(pcs: map<Handle, Pc>, h: Handle, pc: Pc, b: int)
    requires h in pcs
    ensures RefSet(pcs[h := pc], b) == RefSet(pcs, b) - {h} + (if RefOf(pc) == b then {h} else {})
    ensures h in RefSet(pcs, b) <==> RefOf(pcs[h]) == b
  {
  }

  /** The counts after h moved to pc' and the pins and counts of one buffer changed. */
  lemma RefsKept(s: State, t: State, h: Handle)
    requires Shape(s) && Shape(t) && RefsOk(s) && h in s.pcs && h in t.pcs && t.pcs == s.pcs[h := t.pcs[h]]
    requires |t.bufs| == |s.bufs|
    requires forall b :: IsBuf(s, b) ==>
      t.bufs[b].refcnt - t.pins[b] - (if RefOf(t.pcs[h]) == b then 1 else 0)
      == s.bufs[b].refcnt - s.pins[b] - (if RefOf(s.pcs[h]) == b then 1 else 0)
    ensures RefsOk(t)
  {
    hide RefOf;
    forall b | IsBuf(t, b) ensures t.bufs[b].refcnt == |RefSet(t.pcs, b)| + t.pins[b] {
      assert IsBuf(s, b);
      RefSetMoved(s.pcs, h, t.pcs[h], b);
    }
  }

  /** A handle's reference keeps the count positive. */
  lemma RefCounts(s: State, h: Handle)
    requires Inv(s) && h in s.pcs && HasRef(s.pcs[h])
    ensures var b := RefOf(s.pcs[h]); IsBuf(s, b) && s.bufs[b].refcnt > 0 && s.bufs[b].refcnt > s.pins[b]
    ensures var b := RefOf(s.pcs[h]); !InHands(s, b) && s.at[b] == Hash(s, s.pcs[h].key) && s.bufs[b].key == s.pcs[h].key
  {
    hide LocksOk, ListsOk, UniqueOk, DataOk;
    var b := RefOf(s.pcs[h]);
    assert PcOk(s, s.pcs[h]);
    assert h in RefSet(s.pcs, b);
  }

  // ---------------------------------------------------------------- steps that touch no buffer

  /** The data part of the state, on which the conditions on program counters depend. */
  ghost predicate SameCache(s: State, t: State) {
    t.bufs == s.bufs && t.head == s.head && t.lists == s.lists && t.at == s.at && t.pins == s.pins
  }

  lemma PcSame(s: State, t: State, pc: Pc)
    requires Shape(s) && Shape(t) && SameCache(s, t) && PcOk(s, pc)
    ensures PcOk(t, pc)
  {
  }

  /** A step that only moves h and its locks. */
  lemma LockStep(s: State, t: State, h: Handle)
    requires Inv(s) && Shape(t) && LocksMoved(s, t, h) && SameCache(s, t) && t.disk == s.disk && t.truth == s.truth && t.stray == s.stray
    requires RefOf(t.pcs[h]) == RefOf(s.pcs[h]) && PcOk(t, t.pcs[h])
    requires forall b :: IsBuf(s, b) ==> (InHands(t, b) <==> InHands(s, b))
    ensures Inv(t)
  {
    LockStepRest(s, t, h);
    hide PcOk, PlaceOk, LocksMoved, ListsOk, DataOk, UniqueOk;
    LocksKept(s, t, h);
    RefsKept(s, t, h);
    forall g | g in t.pcs ensures PcOk(t, t.pcs[g]) {
      if g != h { PcSame(s, t, s.pcs[g]); }
    }
  }

  lemma LockStepRest(s: State, t: State, h: Handle)
    requires Inv(s) && Shape(t) && SameCache(s, t) && t.disk == s.disk && t.truth == s.truth && t.stray == s.stray
    requires forall b :: IsBuf(s, b) ==> (InHands(t, b) <==> InHands(s, b))
    ensures ListsOk(t) && UniqueOk(t) && DataOk(t) && PlaceOk(t)
  {
    hide LocksOk, PcOk, RefsOk, InHands;
    assert forall k :: Cached(t, k) <==> Cached(s, k);
    forall i | 0 <= i < |t.lists| ensures ChainOk(t, i) { assert ChainOk(s, i); }
  }

  /** When neither pc has a victim, nothing is or becomes in hand through this step. */
  lemma HandsSame(s: State, t: State, h: Handle)
    requires Shape(s) && Shape(t) && LocksOk(s) && LocksMoved(s, t, h)
    requires VictimOf(t.pcs[h]) == VictimOf(s.pcs[h])
    ensures forall b :: b >= 0 ==> (InHands(t, b) <==> InHands(s, b))
  {
    hide Buckets, SleepOf;
    assert IsGlobal(s.pcs[h]) <==> s.global == Some(h);
  }

  lemma MoveOnly(s: State, t: State, h: Handle)
    requires Inv(s) && Shape(t) && LocksMoved(s, t, h) && SameCache(s, t) && t.disk == s.disk && t.truth == s.truth && t.stray == s.stray
    requires RefOf(t.pcs[h]) == RefOf(s.pcs[h]) && VictimOf(t.pcs[h]) == VictimOf(s.pcs[h]) && PcOk(t, t.pcs[h])
    ensures Inv(t)
  {
    hide PcOk, LocksMoved, InHands, ListsOk, PlaceOk, DataOk, RefsOk;
    HandsSame(s, t, h);
    LockStep(s, t, h);
  }

  /** The locks h holds are those of its pc, in the form LocksMoved needs. */
  lemma MyLocks(s: State, h: Handle)
    requires Shape(s) && LocksOk(s) && h in s.pcs
    ensures forall i :: 0 <= i < |s.block| ==> (i in Buckets(s.pcs[h], |s.head|) <==> s.block[i] == Some(h))
    ensures s.global == Some(h) <==> IsGlobal(s.pcs[h])
    ensures forall b :: 0 <= b < |s.sleep| ==> (SleepOf(s.pcs[h]) == b <==> s.sleep[b] == Some(h))
  {
  }

  /** The five ways in which a step touches the locks. */
  lemma NoLock(s: State, t: State, h: Handle)
    requires Shape(s) && Shape(t) && LocksOk(s) && h in s.pcs && h in t.pcs && t.pcs == s.pcs[h := t.pcs[h]]
    requires t.block == s.block && t.global == s.global && t.sleep == s.sleep && |t.head| == |s.head|
    requires Buckets(t.pcs[h], |s.head|) == Buckets(s.pcs[h], |s.head|)
    requires IsGlobal(t.pcs[h]) == IsGlobal(s.pcs[h]) && SleepOf(t.pcs[h]) == SleepOf(s.pcs[h])
    ensures LocksMoved(s, t, h)
  {
    hide Buckets, IsGlobal, SleepOf;
    MyLocks(s, h);
  }

  lemma TakeBucket(s: State, t: State, h: Handle, i: int)
    requires Shape(s) && Shape(t) && LocksOk(s) && h in s.pcs && h in t.pcs && t.pcs == s.pcs[h := t.pcs[h]]
    requires 0 <= i < |s.block| && s.block[i].None? && t.block == s.block[i := Some(h)]
    requires t.global == s.global && t.sleep == s.sleep && |t.head| == |s.head|
    requires Buckets(t.pcs[h], |s.head|) == Buckets(s.pcs[h], |s.head|) + {i}
    requires IsGlobal(t.pcs[h]) == IsGlobal(s.pcs[h]) && SleepOf(t.pcs[h]) == SleepOf(s.pcs[h])
    ensures LocksMoved(s, t, h)
  {
    hide Buckets, IsGlobal, SleepOf;
    MyLocks(s, h);
  }

  lemma DropBucket(s: State, t: State, h: Handle, i: int)
    requires Shape(s) && Shape(t) && LocksOk(s) && h in s.pcs && h in t.pcs && t.pcs == s.pcs[h := t.pcs[h]]
    requires 0 <= i < |s.block| && i in Buckets(s.pcs[h], |s.head|) && t.block == s.block[i := None]
    requires t.global == s.global && t.sleep == s.sleep && |t.head| == |s.head|
    requires Buckets(t.pcs[h], |s.head|) == Buckets(s.pcs[h], |s.head|) - {i}
    requires IsGlobal(t.pcs[h]) == IsGlobal(s.pcs[h]) && SleepOf(t.pcs[h]) == SleepOf(s.pcs[h])
    ensures LocksMoved(s, t, h)
  {
    hide Buckets, IsGlobal, SleepOf;
    MyLocks(s, h);
  }

  lemma MoveGlobal(s: State, t: State, h: Handle)
    requires Shape(s) && Shape(t) && LocksOk(s) && h in s.pcs && h in t.pcs && t.pcs == s.pcs[h := t.pcs[h]]
    requires t.block == s.block && t.sleep == s.sleep && |t.head| == |s.head|
    requires Buckets(t.pcs[h], |s.head|) == Buckets(s.pcs[h], |s.head|) && SleepOf(t.pcs[h]) == SleepOf(s.pcs[h])
    requires (IsGlobal(t.pcs[h]) && s.global.None? && t.global == Some(h))
      || (!IsGlobal(t.pcs[h]) && IsGlobal(s.pcs[h]) && t.global.None?)
    ensures LocksMoved(s, t, h)
  {
    hide Buckets, IsGlobal, SleepOf;
    MyLocks(s, h);
  }

  lemma MoveSleep(s: State, t: State, h: Handle, b: int)
    requires Shape(s) && Shape(t) && LocksOk(s) && h in s.pcs && h in t.pcs && t.pcs == s.pcs[h := t.pcs[h]]
    requires t.block == s.block && t.global == s.global && |t.head| == |s.head| && IsGlobal(t.pcs[h]) == IsGlobal(s.pcs[h])
    requires Buckets(t.pcs[h], |s.head|) == Buckets(s.pcs[h], |s.head|) && 0 <= b < |s.sleep|
    requires (s.sleep[b].None? && SleepOf(s.pcs[h]) == -1 && SleepOf(t.pcs[h]) == b && t.sleep == s.sleep[b := Some(h)])
      || (SleepOf(s.pcs[h]) == b && SleepOf(t.pcs[h]) == -1 && t.sleep == s.sleep[b := None])
    ensures LocksMoved(s, t, h)
  {
    hide Buckets, IsGlobal, SleepOf;
    MyLocks(s, h);
  }

  // ---------------------------------------------------------------- lookups

  lemma ChainFacts(s: State, i: nat, j: nat)
    requires Shape(s) && ListsOk(s) && i < |s.lists| && j <= |s.lists[i]|
    ensures s.head[i] == ElemAt(s.lists[i], 0)
    ensures j < |s.lists[i]| ==> IsBuf(s, s.lists[i][j]) && s.bufs[s.lists[i][j]].next == ElemAt(s.lists[i], j + 1)
    ensures IsBuf(s, ElemAt(s.lists[i], j)) <==> j < |s.lists[i]|
  {
    assert ChainOk(s, i);
  }

  lemma StartIdle(s: State, h: Handle, a: Action)
    requires Inv(s) && Enabled(s, h, a) && PcOk(s, s.pcs[h]) && s.pcs[h].Idle?
    ensures Inv(StepLookup(s, h, a))
  {
    hide LocksOk, ListsOk, PlaceOk, UniqueOk, RefsOk, DataOk, LocksMoved, PcsOk;
    var t := StepLookup(s, h, a);
    NoLock(s, t, h);
    MoveOnly(s, t, h);
  }

  lemma StartFirst(s: State, h: Handle, a: Action)
    requires Inv(s) && Enabled(s, h, a) && PcOk(s, s.pcs[h]) && s.pcs[h].First?
    ensures Inv(StepLookup(s, h, a))
  {
    hide LocksOk, ListsOk, PlaceOk, UniqueOk, RefsOk, DataOk, LocksMoved, PcsOk;
    var t := StepLookup(s, h, a);
    ChainFacts(s, Hash(s, s.pcs[h].key), 0);
    TakeBucket(s, t, h, Hash(s, s.pcs[h].key));
    MoveOnly(s, t, h);
  }

  lemma StartAll(s: State, h: Handle, a: Action)
    requires Inv(s) && Enabled(s, h, a) && PcOk(s, s.pcs[h]) && s.pcs[h].WantAll?
    ensures Inv(StepLookup(s, h, a))
  {
    hide LocksOk, ListsOk, PlaceOk, UniqueOk, RefsOk, DataOk, LocksMoved, PcsOk;
    var t := StepLookup(s, h, a);
    ChainFacts(s, Hash(s, s.pcs[h].key), 0);
    MoveGlobal(s, t, h);
    MoveOnly(s, t, h);
  }

  lemma LeaveGlobal(s: State, h: Handle, a: Action)
    requires Inv(s) && Enabled(s, h, a) && PcOk(s, s.pcs[h]) && s.pcs[h].Hit2Done?
    ensures Inv(StepLookup(s, h, a))
  {
    hide LocksOk, ListsOk, PlaceOk, UniqueOk, RefsOk, DataOk, LocksMoved, PcsOk;
    var t := StepLookup(s, h, a);
    MoveGlobal(s, t, h);
    MoveOnly(s, t, h);
  }

  lemma LeaveHit1(s: State, h: Handle, a: Action)
    requires Inv(s) && Enabled(s, h, a) && PcOk(s, s.pcs[h]) && s.pcs[h].Hit1?
    ensures Inv(StepLookup(s, h, a))
  {
    hide LocksOk, ListsOk, PlaceOk, UniqueOk, RefsOk, DataOk, LocksMoved, PcsOk;
    var t := StepLookup(s, h, a);
    DropBucket(s, t, h, Hash(s, s.pcs[h].key));
    MoveOnly(s, t, h);
  }

  lemma LeaveMiss1(s: State, h: Handle, a: Action)
    requires Inv(s) && Enabled(s, h, a) && PcOk(s, s.pcs[h]) && s.pcs[h].Miss1?
    ensures Inv(StepLookup(s, h, a))
  {
    hide LocksOk, ListsOk, PlaceOk, UniqueOk, RefsOk, DataOk, LocksMoved, PcsOk;
    var t := StepLookup(s, h, a);
    DropBucket(s, t, h, Hash(s, s.pcs[h].key));
    MoveOnly(s, t, h);
  }

  lemma LeaveHit2(s: State, h: Handle, a: Action)
    requires Inv(s) && Enabled(s, h, a) && PcOk(s, s.pcs[h]) && s.pcs[h].Hit2Counted?
    ensures Inv(StepLookup(s, h, a))
  {
    hide LocksOk, ListsOk, PlaceOk, UniqueOk, RefsOk, DataOk, LocksMoved, PcsOk;
    var t := StepLookup(s, h, a);
    DropBucket(s, t, h, Hash(s, s.pcs[h].key));
    MoveOnly(s, t, h);
  }

  lemma WalkMiss(s: State, h: Handle, a: Action)
    requires Inv(s) && Enabled(s, h, a) && PcOk(s, s.pcs[h]) && (s.pcs[h].Walk1? || s.pcs[h].Walk2?) && !IsBuf(s, s.pcs[h].b)
    ensures Inv(StepLookup(s, h, a))
  {
    hide LocksOk, ListsOk, PlaceOk, UniqueOk, RefsOk, DataOk, LocksMoved, PcsOk;
    var t := StepLookup(s, h, a);
    ChainFacts(s, Hash(s, s.pcs[h].key), s.pcs[h].j);
    if s.pcs[h].Walk2? { WholeListSeen(s, h); }
    NoLock(s, t, h);
    MoveOnly(s, t, h);
  }

  lemma Walk1On(s: State, h: Handle, a: Action)
    requires Inv(s) && Enabled(s, h, a) && PcOk(s, s.pcs[h]) && s.pcs[h].Walk1? && IsBuf(s, s.pcs[h].b)
      && s.bufs[s.pcs[h].b].key != s.pcs[h].key
    ensures Inv(StepLookup(s, h, a))
  {
    hide LocksOk, ListsOk, PlaceOk, UniqueOk, RefsOk, DataOk, LocksMoved, PcsOk;
    var t := StepLookup(s, h, a);
    ChainFacts(s, Hash(s, s.pcs[h].key), s.pcs[h].j);
    WalkAt(s, s.pcs[h]);
    NoLock(s, t, h);
    MoveOnly(s, t, h);
  }

  lemma Walk2On(s: State, h: Handle, a: Action)
    requires Inv(s) && Enabled(s, h, a) && PcOk(s, s.pcs[h]) && s.pcs[h].Walk2? && IsBuf(s, s.pcs[h].b)
    ensures Inv(StepLookup(s, h, a))
  {
    hide LocksOk, ListsOk, PlaceOk, UniqueOk, RefsOk, DataOk, LocksMoved, PcsOk;
    var t := StepLookup(s, h, a);
    ChainFacts(s, Hash(s, s.pcs[h].key), s.pcs[h].j);
    WalkAt(s, s.pcs[h]);
    NoLock(s, t, h);
    MoveOnly(s, t, h);
  }

  lemma WalkAt(s: State, pc: Pc)
    requires Shape(s) && ListsOk(s) && PcOk(s, pc) && (pc.Walk1? || pc.Walk2?) && IsBuf(s, pc.b)
    ensures s.at[pc.b] == Hash(s, pc.key)
  {
    ChainFacts(s, Hash(s, pc.key), pc.j);
  }

  /** When the second lookup has seen its whole list, no buffer at all carries the block: buffers of
      a real block are in their bucket or in the hands of the global-lock holder, which is h. */
  lemma WholeListSeen(s: State, h: Handle)
    requires Inv(s) && h in s.pcs && s.pcs[h].Walk2? && PcOk(s, s.pcs[h])
    requires s.pcs[h].j == |s.lists[Hash(s, s.pcs[h].key)]|
    ensures NoMatch(s, s.pcs[h].key)
  {
    hide UniqueOk, RefsOk, DataOk;
    var key := s.pcs[h].key;
    var l := s.lists[Hash(s, key)];
    assert s.global == Some(h);
    forall b | IsBuf(s, b) ensures s.bufs[b].key != key {
      assert s.at[b] == Hash(s, key) ==> b in l;
    }
  }

  // ---------------------------------------------------------------- steps that change a count

  /** t is s with the count (and time) of b changed while h holds the lock of b's bucket. */
  ghost predicate CountMoved(s: State, t: State, h: Handle, b: int)
    requires Shape(s) && Shape(t)
  {
    && IsBuf(s, b) && |t.bufs| == |s.bufs|
    && t.bufs == s.bufs[b := s.bufs[b].(refcnt := t.bufs[b].refcnt, time := t.bufs[b].time)]
    && t.head == s.head && t.lists == s.lists && t.at == s.at && t.disk == s.disk && t.truth == s.truth
    && s.stray <= t.stray <= s.stray + {s.bufs[b].key}
    && 0 <= s.at[b] < |s.head| && t.block[s.at[b]] == Some(h)
  }

  lemma CountStep(s: State, t: State, h: Handle, b: int)
    requires Inv(s) && Shape(t) && LocksMoved(s, t, h) && CountMoved(s, t, h, b)
    requires VictimOf(t.pcs[h]) == VictimOf(s.pcs[h]) == -1 && RefsOk(t) && PcOk(t, t.pcs[h])
    requires forall c :: 0 <= c < |s.pins| && c != b ==> t.pins[c] == s.pins[c]
    requires t.pins[b] != s.pins[b] ==> SleepOf(s.pcs[h]) == b
    requires t.bufs[b].refcnt > 0 ==> s.bufs[b].key.dev != 0
    requires t.bufs[b].refcnt == 0 ==> Get(s.disk, s.bufs[b].key) == s.bufs[b].data || s.bufs[b].key in t.stray
    ensures Inv(t)
  {
    hide PcOk, RefsOk, PlaceOk, DataOk, UniqueOk, ListsOk, InHands;
    LocksKept(s, t, h);
    HandsSame(s, t, h);
    CountRest(s, t, h, b);
    forall g | g in t.pcs ensures PcOk(t, t.pcs[g]) {
      if g != h { CountPc(s, t, h, b, g); }
    }
  }

  lemma CountRest(s: State, t: State, h: Handle, b: int)
    requires Inv(s) && Shape(t) && LocksMoved(s, t, h) && CountMoved(s, t, h, b)
    requires VictimOf(s.pcs[h]) == -1
    requires forall c :: c >= 0 ==> (InHands(t, c) <==> InHands(s, c))
    requires t.bufs[b].refcnt > 0 ==> s.bufs[b].key.dev != 0
    requires t.bufs[b].refcnt == 0 ==> Get(s.disk, s.bufs[b].key) == s.bufs[b].data || s.bufs[b].key in t.stray
    ensures ListsOk(t) && PlaceOk(t) && UniqueOk(t) && DataOk(t)
  {
    hide RefsOk;
    NotInHands(s, t, h, b);
    hide LocksMoved;
    forall c | IsBuf(s, c)
      ensures t.bufs[c].key == s.bufs[c].key && t.bufs[c].valid == s.bufs[c].valid
        && t.bufs[c].data == s.bufs[c].data && t.bufs[c].next == s.bufs[c].next
    {
    }
    hide LocksOk, PcOk;
    CountLists(s, t, b);
    hide ListsOk, ChainOk;
    CountData(s, t, b);
    hide DataOk;
  }

  lemma CountData(s: State, t: State, b: int)
    requires DataOk(s) && IsBuf(s, b) && |t.bufs| == |s.bufs| && t.disk == s.disk && t.truth == s.truth
    requires t.bufs == s.bufs[b := s.bufs[b].(refcnt := t.bufs[b].refcnt, time := t.bufs[b].time)]
    requires s.stray <= t.stray <= s.stray + {s.bufs[b].key}
    requires t.bufs[b].refcnt == 0 ==> Get(s.disk, s.bufs[b].key) == s.bufs[b].data || s.bufs[b].key in t.stray
    ensures DataOk(t)
  {
    forall c | IsBuf(s, c) ensures t.bufs[c].key == s.bufs[c].key && t.bufs[c].valid == s.bufs[c].valid && t.bufs[c].data == s.bufs[c].data { }
    assert forall k :: Cached(t, k) <==> Cached(s, k);
  }

  lemma CountLists(s: State, t: State, b: int)
    requires Shape(s) && Shape(t) && ListsOk(s) && |t.bufs| == |s.bufs| && t.head == s.head && t.lists == s.lists && t.at == s.at
    requires forall c :: IsBuf(s, c) ==> t.bufs[c].next == s.bufs[c].next
    ensures ListsOk(t)
  {
    forall i | 0 <= i < |t.lists| ensures ChainOk(t, i) { assert ChainOk(s, i); }
  }

  /** A bucket that h holds after its step is held by no other handle before it. */
  lemma NotTheirs(s: State, t: State, h: Handle, i: nat, g: Handle)
    requires Shape(s) && Shape(t) && LocksOk(s) && LocksMoved(s, t, h) && i < |s.block| && t.block[i] == Some(h)
    requires g in s.pcs && g != h
    ensures i !in Buckets(s.pcs[g], |s.head|)
  {
    hide Buckets, SleepOf, IsGlobal;
    assert i in Buckets(s.pcs[g], |s.head|) <==> s.block[i] == Some(g);
  }

  /** The buffer in hand is on no list, or its bucket is locked by the one who has it. */
  lemma NotInHands(s: State, t: State, h: Handle, b: int)
    requires Inv(s) && Shape(t) && LocksMoved(s, t, h) && CountMoved(s, t, h, b) && VictimOf(s.pcs[h]) == -1
    ensures !InHands(s, b)
  {
    hide ListsOk, UniqueOk, RefsOk, DataOk, PlaceOk, LocksMoved;
    if InHands(s, b) {
      var g := s.global.value;
      assert PcOk(s, s.pcs[g]);
      NotTheirs(s, t, h, s.at[b], g);
    }
  }

  /** The other handles' views survive the change of a count. */
  lemma CountPc(s: State, t: State, h: Handle, b: int, g: Handle)
    requires h in s.pcs && Inv(s) && Shape(t) && LocksMoved(s, t, h) && CountMoved(s, t, h, b) && g in s.pcs && g != h
    requires forall c :: 0 <= c < |s.pins| && c != b ==> t.pins[c] == s.pins[c]
    requires t.pins[b] != s.pins[b] ==> SleepOf(s.pcs[h]) == b
    ensures PcOk(t, s.pcs[g])
  {
    hide UniqueOk, RefsOk, DataOk, PlaceOk, ListsOk, LocksMoved, PcOk;
    var pc := s.pcs[g];
    assert PcOk(s, pc);
    NotTheirs(s, t, h, s.at[b], g);
    assert SleepOf(pc) == b ==> s.sleep[b] == Some(g);
    assert SleepOf(s.pcs[h]) == b ==> s.sleep[b] == Some(h);
    if pc.ScanNext? || pc.Scan? || pc.Chosen? {
      CountPcScan(s, t, h, b, pc);
    } else {
      CountPcPlain(s, t, h, b, pc);
    }
  }

  lemma CountPcScan(s: State, t: State, h: Handle, b: int, pc: Pc)
    requires Shape(s) && Shape(t) && ListsOk(s) && CountMoved(s, t, h, b) && PcOk(s, pc)
    requires (pc.ScanNext? || pc.Scan? || pc.Chosen?) && s.at[b] !in Buckets(pc, |s.head|)
    ensures PcOk(t, pc)
  {
    hide ListsOk;
    CountBest(s, t, b, pc.best, pc.seen, Buckets(pc, |s.head|));
  }

  lemma CountPcPlain(s: State, t: State, h: Handle, b: int, pc: Pc)
    requires Shape(s) && Shape(t) && CountMoved(s, t, h, b) && PcOk(s, pc)
    requires !(pc.ScanNext? || pc.Scan? || pc.Chosen?) && s.at[b] !in Buckets(pc, |s.head|)
    requires forall c :: 0 <= c < |s.pins| && c != b ==> t.pins[c] == s.pins[c]
    requires SleepOf(pc) == b ==> t.pins[b] == s.pins[b]
    ensures PcOk(t, pc)
  {
  }

  lemma CountBest(s: State, t: State, b: int, best: Best, seen: seq<nat>, mine: set<int>)
    requires Shape(s) && Shape(t) && ListsOk(s) && BestOk(s, best, seen) && t.lists == s.lists && t.head == s.head
    requires IsBuf(s, b) && |t.bufs| == |s.bufs| && (forall c :: IsBuf(s, c) && c != b ==> t.bufs[c] == s.bufs[c])
    requires s.at[b] !in mine && (best.Best? ==> best.o in mine)
    ensures BestOk(t, best, seen)
  {
    if best.Best? { assert s.at[best.v] == best.o; }
  }

  lemma HitFirst(s: State, h: Handle, a: Action)
    requires Inv(s) && Enabled(s, h, a) && PcOk(s, s.pcs[h])
    requires s.pcs[h].Walk1? && IsBuf(s, s.pcs[h].b) && s.bufs[s.pcs[h].b].key == s.pcs[h].key
    ensures Inv(StepLookup(s, h, a))
  {
    hide LocksOk, UniqueOk, PlaceOk, DataOk, ListsOk, LocksMoved, RefsOk, PcsOk;
    var t := StepLookup(s, h, a);
    WalkAt(s, s.pcs[h]);
    NoLock(s, t, h);
    MyLocks(s, h);
    RefsKept(s, t, h);
    CountStep(s, t, h, s.pcs[h].b);
  }

  lemma HitSecond(s: State, h: Handle, a: Action)
    requires Inv(s) && Enabled(s, h, a) && PcOk(s, s.pcs[h]) && s.pcs[h].Hit2?
    ensures Inv(StepLookup(s, h, a))
  {
    hide LocksOk, UniqueOk, PlaceOk, DataOk, ListsOk, LocksMoved, RefsOk, PcsOk;
    var t := StepLookup(s, h, a);
    TakeBucket(s, t, h, Hash(s, s.pcs[h].key));
    RefsKept(s, t, h);
    CountStep(s, t, h, s.pcs[h].b);
  }

  lemma LookupInv(s: State, h: Handle, a: Action)
    requires Inv(s) && Enabled(s, h, a) && InLookup(s.pcs[h])
    ensures PcOk(s, s.pcs[h]) && Inv(StepLookup(s, h, a))
  {
    hide LocksOk, ListsOk, PlaceOk, UniqueOk, RefsOk, DataOk, PcOk, StepLookup;
    assert PcOk(s, s.pcs[h]);
    match s.pcs[h]
    case Idle => StartIdle(s, h, a);
    case First(_) => StartFirst(s, h, a);
    case WantAll(_) => StartAll(s, h, a);
    case Hit2Done(_, _) => LeaveGlobal(s, h, a);
    case Hit2(_, _) => HitSecond(s, h, a);
    case Walk1(key, j, b) =>
      if !IsBuf(s, b) { WalkMiss(s, h, a); } else if s.bufs[b].key == key { HitFirst(s, h, a); } else { Walk1On(s, h, a); }
    case Walk2(key, j, b) =>
      if !IsBuf(s, b) { WalkMiss(s, h, a); } else { Walk2On(s, h, a); }
    case Hit1(_, _) => LeaveHit1(s, h, a);
    case Miss1(_) => LeaveMiss1(s, h, a);
    case Hit2Counted(_, _) => LeaveHit2(s, h, a);
  }

  // ---------------------------------------------------------------- the scan

  lemma ScanLock(s: State, h: Handle)
    requires Inv(s) && Enabled(s, h, Go) && PcOk(s, s.pcs[h]) && s.pcs[h].ScanNext? && s.pcs[h].i < |s.head|
    ensures Inv(StepScan(s, h))
  {
    hide LocksOk, ListsOk, PlaceOk, UniqueOk, RefsOk, DataOk, LocksMoved, PcsOk;
    var t := StepScan(s, h);
    TakeBucket(s, t, h, s.pcs[h].i);
    MoveOnly(s, t, h);
  }

  lemma ScanDone(s: State, h: Handle)
    requires Inv(s) && h in s.pcs && PcOk(s, s.pcs[h]) && s.pcs[h].ScanNext? && s.pcs[h].i >= |s.head|
    ensures Inv(StepScan(s, h))
  {
    hide LocksOk, ListsOk, PlaceOk, UniqueOk, RefsOk, DataOk, LocksMoved, PcsOk;
    var t := StepScan(s, h);
    NoLock(s, t, h);
    MoveOnly(s, t, h);
  }

  /** The pointer the scan holds leads to the next element of the list. */
  lemma PtrNext(s: State, i: nat, j: nat)
    requires Shape(s) && ListsOk(s) && i < |s.lists| && j <= |s.lists[i]|
    ensures NextOf(s, PtrAt(s, i, j)) == ElemAt(s.lists[i], j)
    ensures IsBuf(s, ElemAt(s.lists[i], j)) <==> j < |s.lists[i]|
    ensures j < |s.lists[i]| ==> PtrAt(s, i, j + 1) == Node(s.lists[i][j])
  {
    ChainFacts(s, i, j);
    if j > 0 { ChainFacts(s, i, j - 1); }
  }

  /** Looking at one more buffer keeps the candidate free and no later than any free one seen. */
  lemma ConsiderOk(s: State, best: Best, seen: seq<nat>, i: nat, j: nat)
    requires Shape(s) && BestOk(s, best, seen) && i < |s.lists| && j < |s.lists[i]| && IsBuf(s, s.lists[i][j])
    ensures var c := s.lists[i][j];
      BestOk(s, Consider(s, best, i, j, PtrAt(s, i, j), c), if s.bufs[c].refcnt == 0 then seen + [s.bufs[c].time] else seen)
  {
  }

  lemma ScanLook(s: State, h: Handle)
    requires Inv(s) && h in s.pcs && PcOk(s, s.pcs[h]) && s.pcs[h].Scan? && IsBuf(s, NextOf(s, s.pcs[h].p))
    ensures Inv(StepScan(s, h))
  {
    hide LocksOk, ListsOk, PlaceOk, UniqueOk, RefsOk, DataOk, LocksMoved, PcsOk;
    var t, pc := StepScan(s, h), s.pcs[h];
    PtrNext(s, pc.i, pc.j);
    ConsiderOk(s, pc.best, pc.seen, pc.i, pc.j);
    NoLock(s, t, h);
    ScanLookPc(s, t, pc, t.pcs[h]);
    MoveOnly(s, t, h);
  }

  lemma ScanLookPc(s: State, t: State, pc: Pc, pc': Pc)
    requires Shape(s) && Shape(t) && SameCache(s, t) && PcOk(s, pc) && pc.Scan? && pc.j < |s.lists[pc.i]|
    requires IsBuf(s, s.lists[pc.i][pc.j])
    requires var c := s.lists[pc.i][pc.j];
      var best' := Consider(s, pc.best, pc.i, pc.j, pc.p, c);
      var seen' := if s.bufs[c].refcnt == 0 then pc.seen + [s.bufs[c].time] else pc.seen;
      BestOk(s, best', seen')
      && pc' == Scan(pc.key, pc.i, best', pc.own, seen', pc.flag || best' != pc.best, pc.j + 1, Node(c))
    ensures PcOk(t, pc')
  {
  }

  lemma ScanEnd(s: State, h: Handle)
    requires Inv(s) && h in s.pcs && PcOk(s, s.pcs[h]) && s.pcs[h].Scan? && !IsBuf(s, NextOf(s, s.pcs[h].p))
    ensures Inv(StepScan(s, h))
  {
    hide LocksOk, ListsOk, PlaceOk, UniqueOk, RefsOk, DataOk, LocksMoved, PcsOk;
    var t, pc := StepScan(s, h), s.pcs[h];
    if pc.flag {
      if pc.own >= 0 { DropBucket(s, t, h, pc.own); } else { NoLock(s, t, h); }
    } else {
      DropBucket(s, t, h, pc.i);
    }
    MoveOnly(s, t, h);
  }

  lemma ScanInv(s: State, h: Handle)
    requires Inv(s) && Enabled(s, h, Go) && InScan(s.pcs[h])
    ensures PcOk(s, s.pcs[h]) && Inv(StepScan(s, h))
  {
    hide LocksOk, ListsOk, PlaceOk, UniqueOk, RefsOk, DataOk, PcOk, StepScan;
    assert PcOk(s, s.pcs[h]);
    if s.pcs[h].ScanNext? { if s.pcs[h].i < |s.head| { ScanLock(s, h); } else { ScanDone(s, h); } }
    else if IsBuf(s, NextOf(s, s.pcs[h].p)) { ScanLook(s, h); }
    else { ScanEnd(s, h); }
  }

  // ---------------------------------------------------------------- moving the victim

  /** Only the global-lock holder has a victim. */
  lemma HandsOf(s: State, h: Handle)
    requires Shape(s) && LocksOk(s) && h in s.pcs && IsGlobal(s.pcs[h])
    ensures forall b :: InHands(s, b) <==> b == VictimOf(s.pcs[h])
    ensures forall g :: g in s.pcs && g != h ==> !IsGlobal(s.pcs[g])
  {
    hide Buckets, SleepOf, IsGlobal;
  }

  lemma MoveUnlinked(s: State, h: Handle)
    requires Inv(s) && Enabled(s, h, Go) && PcOk(s, s.pcs[h]) && s.pcs[h].Unlinked?
    ensures Inv(StepMove(s, h))
  {
    hide LocksOk, ListsOk, PlaceOk, UniqueOk, RefsOk, DataOk, LocksMoved, PcsOk;
    var t := StepMove(s, h);
    DropBucket(s, t, h, s.pcs[h].own);
    MoveOnly(s, t, h);
  }

  lemma MoveGap(s: State, h: Handle)
    requires Inv(s) && Enabled(s, h, Go) && PcOk(s, s.pcs[h]) && s.pcs[h].Gap?
    ensures Inv(StepMove(s, h))
  {
    hide LocksOk, ListsOk, PlaceOk, UniqueOk, RefsOk, DataOk, LocksMoved, PcsOk;
    var t := StepMove(s, h);
    TakeBucket(s, t, h, Hash(s, s.pcs[h].key));
    MoveOnly(s, t, h);
  }

  lemma MoveClaimed(s: State, h: Handle)
    requires Inv(s) && Enabled(s, h, Go) && PcOk(s, s.pcs[h]) && s.pcs[h].Claimed?
    ensures Inv(StepMove(s, h))
  {
    hide LocksOk, ListsOk, PlaceOk, UniqueOk, RefsOk, DataOk, LocksMoved, PcsOk;
    var t := StepMove(s, h);
    DropBucket(s, t, h, Hash(s, s.pcs[h].key));
    MoveOnly(s, t, h);
  }

  lemma MoveFree(s: State, h: Handle)
    requires Inv(s) && Enabled(s, h, Go) && PcOk(s, s.pcs[h]) && s.pcs[h].ClaimedFree?
    ensures Inv(StepMove(s, h))
  {
    hide LocksOk, ListsOk, PlaceOk, UniqueOk, RefsOk, DataOk, LocksMoved, PcsOk;
    var t := StepMove(s, h);
    MoveGlobal(s, t, h);
    MoveOnly(s, t, h);
  }

  /** A handle without the global lock is not affected by a change that leaves its bucket, the
      contents, and every buffer with references alone. */
  lemma LocalPc(s: State, t: State, pc: Pc)
    requires Shape(s) && Shape(t) && PcOk(s, pc) && !IsGlobal(pc) && |t.head| == |s.head| && |t.bufs| == |s.bufs|
    requires t.pins == s.pins
    requires pc.Walk1? ==> t.lists[Hash(s, pc.key)] == s.lists[Hash(s, pc.key)]
    requires pc.Walk1? ==>
      forall j :: 0 <= j < |s.lists[Hash(s, pc.key)]| && IsBuf(s, s.lists[Hash(s, pc.key)][j]) ==>
           t.bufs[s.lists[Hash(s, pc.key)][j]].key == s.bufs[s.lists[Hash(s, pc.key)][j]].key
    requires HasRef(pc) ==> var b := RefOf(pc); t.bufs[b].key == s.bufs[b].key && t.bufs[b].valid == s.bufs[b].valid
    ensures PcOk(t, pc)
  {
  }

  /** The victim has been chosen in its own new bucket: it stays there and is re-labelled next. */
  lemma ChosenStays(s: State, h: Handle)
    requires Inv(s) && h in s.pcs && s.pcs[h].Chosen? && PcOk(s, s.pcs[h]) && s.pcs[h].own == Hash(s, s.pcs[h].key)
    ensures Inv(StepMove(s, h))
  {
    hide LocksMoved, DataOk, UniqueOk, RefsOk, PcsOk;
    var t, pc := StepMove(s, h), s.pcs[h];
    NoLock(s, t, h);
    LocksKept(s, t, h);
    HandsOf(s, h);
    HandsOf(t, h);
    assert s.at[pc.best.v] == pc.best.o;
    RefsKept(s, t, h);
    ChosenRest(s, t, h);
  }

  lemma ChosenRest(s: State, t: State, h: Handle)
    requires Inv(s) && h in s.pcs && h in t.pcs && t == At(s, h, t.pcs[h]) && PcOk(t, t.pcs[h])
    ensures Shape(t) && ListsOk(t) && UniqueOk(t) && DataOk(t) && PcsOk(t)
  {
    hide LocksOk, PlaceOk, RefsOk, PcOk;
    forall g | g in t.pcs ensures PcOk(t, t.pcs[g]) { if g != h { PcSame(s, t, s.pcs[g]); } }
    forall i | 0 <= i < |t.lists| ensures ChainOk(t, i) { assert ChainOk(s, i); }
    assert forall k :: Cached(t, k) <==> Cached(s, k);
  }

  // ---- unlinking

  lemma UnlinkChain(s: State, t: State, o: nat, q: nat, before: Ptr, v: int)
    requires Shape(s) && ListsOk(s) && o < |s.lists| && q < |s.lists[o]| && s.lists[o][q] == v && IsBuf(s, v)
    requires before == PtrAt(s, o, q) && (before.Node? ==> IsBuf(s, before.b)) && t == Unlink(s, o, q, before, v)
    ensures Shape(t) && ChainOk(t, o)
  {
    var l, m := s.lists[o], t.lists[o];
    ChainFacts(s, o, q);
    forall j | 0 <= j < |m| ensures IsBuf(t, m[j]) && t.bufs[m[j]].next == ElemAt(m, j + 1) {
      ChainFacts(s, o, if j < q then j else j + 1);
      if j < q { assert m[j] == l[j]; } else { assert m[j] == l[j + 1]; }
    }
  }

  lemma UnlinkLists(s: State, t: State, o: nat, q: nat, before: Ptr, v: int)
    requires Shape(s) && ListsOk(s) && o < |s.lists| && q < |s.lists[o]| && s.lists[o][q] == v && IsBuf(s, v)
    requires before == PtrAt(s, o, q) && (before.Node? ==> IsBuf(s, before.b)) && t == Unlink(s, o, q, before, v)
    ensures Shape(t) && ListsOk(t)
  {
    UnlinkChain(s, t, o, q, before, v);
    UnlinkOthers(s, t, o, q, before, v);
    UnlinkMembers(s.lists[o], t.lists[o], q);
    UnlinkAt(s, t, o, v);
  }

  lemma UnlinkAt(s: State, t: State, o: nat, v: int)
    requires Shape(s) && ListsOk(s) && Shape(t) && o < |s.lists| && IsBuf(s, v) && |t.bufs| == |s.bufs|
    requires t.at == s.at[v := -1] && |t.lists| == |s.lists| && s.at[v] == o
    requires forall i :: 0 <= i < |s.lists| && i != o ==> t.lists[i] == s.lists[i]
    requires forall b :: b in t.lists[o] <==> b in s.lists[o] && b != v
    ensures forall i, j :: 0 <= i < |t.lists| && 0 <= j < |t.lists[i]| && IsBuf(t, t.lists[i][j]) ==> t.at[t.lists[i][j]] == i
    ensures forall b :: IsBuf(t, b) ==> t.at[b] == -1 || (0 <= t.at[b] < |t.lists| && b in t.lists[t.at[b]])
  {
    hide ChainOk;
    forall i, j | 0 <= i < |t.lists| && 0 <= j < |t.lists[i]| && IsBuf(t, t.lists[i][j]) ensures t.at[t.lists[i][j]] == i {
      var b := t.lists[i][j];
      assert b in t.lists[i];
      if i == o {
        var k :| 0 <= k < |s.lists[o]| && s.lists[o][k] == b;
        assert s.at[s.lists[o][k]] == o;
      } else {
        assert s.at[s.lists[i][j]] == i;
      }
    }
  }

  lemma UnlinkMembers(l: seq<int>, m: seq<int>, q: nat)
    requires q < |l| && m == l[..q] + l[q + 1..] && forall j, k :: 0 <= j < k < |l| ==> l[j] != l[k]
    ensures forall b :: b in m <==> b in l && b != l[q]
    ensures forall j, k :: 0 <= j < k < |m| ==> m[j] != m[k]
  {
    forall b | b in l && b != l[q] ensures b in m {
      var k :| 0 <= k < |l| && l[k] == b;
      if k < q { assert m[k] == b; } else { assert m[k - 1] == b; }
    }
  }

  lemma UnlinkOthers(s: State, t: State, o: nat, q: nat, before: Ptr, v: int)
    requires Shape(s) && ListsOk(s) && o < |s.lists| && q < |s.lists[o]| && s.lists[o][q] == v && IsBuf(s, v)
    requires before == PtrAt(s, o, q) && (before.Node? ==> IsBuf(s, before.b)) && t == Unlink(s, o, q, before, v)
    ensures Shape(t) && forall i :: 0 <= i < |t.lists| && i != o ==> ChainOk(t, i)
  {
    forall i | 0 <= i < |t.lists| && i != o ensures ChainOk(t, i) {
      assert ChainOk(s, i);
      forall j | 0 <= j < |s.lists[i]| ensures before != Node(s.lists[i][j]) {
        assert s.at[s.lists[i][j]] == i;
      }
    }
  }

  /** Apart from next pointers, unlinking changes no buffer. */
  lemma UnlinkBufs(s: State, o: nat, q: nat, before: Ptr, v: int)
    requires Shape(s) && o < |s.lists| && q < |s.lists[o]| && IsBuf(s, v)
    requires before.Head? ==> before.i < |s.head|
    requires before.Node? ==> IsBuf(s, before.b)
    ensures var t := Unlink(s, o, q, before, v);
      && |t.bufs| == |s.bufs| && |t.head| == |s.head| && t.pins == s.pins && t.disk == s.disk && t.truth == s.truth && t.stray == s.stray
      && t.pcs == s.pcs && t.block == s.block && t.global == s.global && t.sleep == s.sleep
      && t.at == s.at[v := -1] && t.lists == s.lists[o := s.lists[o][..q] + s.lists[o][q + 1..]]
      && forall b :: IsBuf(s, b) ==> t.bufs[b] == s.bufs[b].(next := t.bufs[b].next)
  {
  }

  /** Steps of the global-lock holder that change chains, places or labels: what remains to be
      checked for the other handles and for the data. */
  lemma HolderStep(s: State, t: State, h: Handle, v: int, i: int)
    requires Inv(s) && Shape(t) && LocksOk(t) && h in s.pcs && h in t.pcs && IsGlobal(s.pcs[h]) && t.pcs == s.pcs[h := t.pcs[h]]
    requires |t.head| == |s.head| && |t.bufs| == |s.bufs| && t.pins == s.pins && IsBuf(s, v) && s.bufs[v].refcnt == 0
    requires 0 <= i < |s.head| && s.block[i] == Some(h) && PcOk(t, t.pcs[h])
    requires forall k :: 0 <= k < |s.lists| && k != i ==> t.lists[k] == s.lists[k]
    requires forall b :: IsBuf(s, b) && b != v ==> t.bufs[b].key == s.bufs[b].key && t.bufs[b].valid == s.bufs[b].valid
    requires s.at[v] == -1 || s.at[v] == i
    ensures PcsOk(t)
  {
    hide PlaceOk, UniqueOk, DataOk, PcOk;
    HandsOf(s, h);
    forall g | g in t.pcs ensures PcOk(t, t.pcs[g]) {
      if g != h {
        var pc := s.pcs[g];
        assert PcOk(s, pc);
        assert s.block[i] != Some(g);
        if HasRef(pc) { RefCounts(s, g); }
        HolderOther(s, t, pc, v, i);
      }
    }
  }

  lemma HolderOther(s: State, t: State, pc: Pc, v: int, i: int)
    requires Shape(s) && Shape(t) && ListsOk(s) && PcOk(s, pc) && !IsGlobal(pc)
    requires |t.head| == |s.head| && |t.bufs| == |s.bufs| && t.pins == s.pins && IsBuf(s, v)
    requires i !in Buckets(pc, |s.head|) && (HasRef(pc) ==> RefOf(pc) != v)
    requires forall k :: 0 <= k < |s.lists| && k != i ==> t.lists[k] == s.lists[k]
    requires forall b :: IsBuf(s, b) && b != v ==> t.bufs[b].key == s.bufs[b].key && t.bufs[b].valid == s.bufs[b].valid
    requires s.at[v] == -1 || s.at[v] == i
    ensures PcOk(t, pc)
  {
    if pc.Walk1? {
      var k := Hash(s, pc.key);
      assert k != i;
      forall j | 0 <= j < |s.lists[k]| && IsBuf(s, s.lists[k][j]) ensures s.lists[k][j] != v {
        assert s.at[s.lists[k][j]] == k;
      }
    }
    LocalPc(s, t, pc);
  }

  /** The global-lock holder moves on without touching a lock. */
  lemma HolderLocks(s: State, t: State, h: Handle)
    requires Inv(s) && Shape(t) && h in s.pcs && h in t.pcs && t.pcs == s.pcs[h := t.pcs[h]]
    requires t.block == s.block && t.global == s.global && t.sleep == s.sleep && |t.head| == |s.head|
    requires Buckets(t.pcs[h], |s.head|) == Buckets(s.pcs[h], |s.head|) && SleepOf(t.pcs[h]) == SleepOf(s.pcs[h])
    requires IsGlobal(s.pcs[h]) && IsGlobal(t.pcs[h])
    ensures LocksOk(t)
    ensures forall b :: InHands(s, b) <==> b == VictimOf(s.pcs[h])
    ensures forall b :: InHands(t, b) <==> b == VictimOf(t.pcs[h])
    ensures forall i :: 0 <= i < |s.block| && i in Buckets(s.pcs[h], |s.head|) ==> s.block[i] == Some(h)
  {
    hide LocksOk, LocksMoved, PlaceOk, DataOk, UniqueOk, RefsOk, PcsOk, ListsOk, InHands, Buckets, SleepOf;
    NoLock(s, t, h);
    LocksKept(s, t, h);
    MyLocks(s, h);
    HandsOf(s, h);
    HandsOf(t, h);
  }

  lemma UnlinkStep(s: State, h: Handle)
    requires Inv(s) && h in s.pcs && s.pcs[h].Chosen? && PcOk(s, s.pcs[h]) && s.pcs[h].own != Hash(s, s.pcs[h].key)
    ensures Inv(StepMove(s, h))
  {
    hide LocksOk, PlaceOk, DataOk, UniqueOk, RefsOk, PcsOk, Unlink, InHands, ListsOk, ChainOk;
    var t, pc := StepMove(s, h), s.pcs[h];
    var Best(o, q, before, v, time) := pc.best;
    BeforeOk(s, o, q);
    UnlinkBufs(s, o, q, before, v);
    UnlinkLists(s, Unlink(s, o, q, before, v), o, q, before, v);
    AtLists(Unlink(s, o, q, before, v), h, t.pcs[h]);
    HolderLocks(s, t, h);
    RefsKept(s, t, h);
    UnlinkPlace(s, t, h, v);
    HolderStep(s, t, h, v, o);
  }

  lemma BeforeOk(s: State, o: nat, q: nat)
    requires Shape(s) && ListsOk(s) && o < |s.lists| && q < |s.lists[o]|
    ensures IsBuf(s, s.lists[o][q]) && s.at[s.lists[o][q]] == o
    ensures PtrAt(s, o, q).Node? ==> IsBuf(s, PtrAt(s, o, q).b)
    ensures PtrAt(s, o, q).Head? ==> PtrAt(s, o, q).i < |s.head|
  {
    assert ChainOk(s, o);
  }

  lemma AtLists(s: State, h: Handle, pc: Pc)
    requires Shape(s) && ListsOk(s)
    ensures Shape(At(s, h, pc)) && ListsOk(At(s, h, pc))
  {
    forall i | 0 <= i < |s.lists| ensures ChainOk(At(s, h, pc), i) { assert ChainOk(s, i); }
  }

  lemma UnlinkPlace(s: State, t: State, h: Handle, v: int)
    requires Inv(s) && Shape(t) && |t.bufs| == |s.bufs| && |t.head| == |s.head| && IsBuf(s, v) && s.bufs[v].refcnt == 0
    requires t.at == s.at[v := -1] && t.disk == s.disk && t.truth == s.truth && t.stray == s.stray
    requires forall b :: IsBuf(s, b) ==> t.bufs[b] == s.bufs[b].(next := t.bufs[b].next)
    requires forall b :: InHands(t, b) <==> b == v
    requires forall b :: IsBuf(s, b) ==> !InHands(s, b)
    ensures PlaceOk(t) && UniqueOk(t) && DataOk(t)
  {
    hide LocksOk, ListsOk, RefsOk, PcsOk, InHands;
    assert forall k :: Cached(t, k) <==> Cached(s, k);
  }

  // ---- linking at the head of the new bucket

  lemma LinkLists(s: State, i: nat, v: int)
    requires Shape(s) && ListsOk(s) && i < |s.lists| && IsBuf(s, v) && s.at[v] == -1
    ensures Shape(LinkHead(s, i, v)) && ListsOk(LinkHead(s, i, v))
  {
    var t := LinkHead(s, i, v);
    var l, m := s.lists[i], t.lists[i];
    forall k, j | 0 <= k < |s.lists| && 0 <= j < |s.lists[k]| ensures s.lists[k][j] != v {
      assert ChainOk(s, k);
      assert s.at[s.lists[k][j]] == k;
    }
    forall k | 0 <= k < |t.lists| ensures ChainOk(t, k) {
      assert ChainOk(s, k);
      if k == i {
        forall j | 0 <= j < |m| ensures IsBuf(t, m[j]) && t.bufs[m[j]].next == ElemAt(m, j + 1) {
          if j > 0 { assert m[j] == l[j - 1]; }
        }
      }
    }
    LinkAt(s, t, i, v);
    LinkDistinct(s, t, i, v);
  }

  lemma LinkAt(s: State, t: State, i: nat, v: int)
    requires Shape(s) && ListsOk(s) && Shape(t) && i < |s.lists| && IsBuf(s, v) && |t.bufs| == |s.bufs|
    requires t.at == s.at[v := i] && t.lists == s.lists[i := [v] + s.lists[i]]
    requires forall k, j :: 0 <= k < |s.lists| && 0 <= j < |s.lists[k]| ==> s.lists[k][j] != v
    ensures forall k, j :: 0 <= k < |t.lists| && 0 <= j < |t.lists[k]| && IsBuf(t, t.lists[k][j]) ==> t.at[t.lists[k][j]] == k
    ensures forall b :: IsBuf(t, b) ==> t.at[b] == -1 || (0 <= t.at[b] < |t.lists| && b in t.lists[t.at[b]])
  {
    hide ChainOk;
    forall k, j | 0 <= k < |t.lists| && 0 <= j < |t.lists[k]| && IsBuf(t, t.lists[k][j]) ensures t.at[t.lists[k][j]] == k {
      if k == i {
        if j > 0 { assert t.lists[k][j] == s.lists[i][j - 1]; }
      } else {
        assert s.at[s.lists[k][j]] == k;
      }
    }
    forall b | IsBuf(t, b) && t.at[b] != -1 ensures 0 <= t.at[b] < |t.lists| && b in t.lists[t.at[b]] {
      if b == v { assert t.lists[i][0] == v; } else if s.at[b] == i { assert b in s.lists[i]; }
    }
  }

  lemma LinkDistinct(s: State, t: State, i: nat, v: int)
    requires i < |s.lists| && t.lists == s.lists[i := [v] + s.lists[i]] && v !in s.lists[i]
    requires forall k, j, l :: 0 <= k < |s.lists| && 0 <= j < l < |s.lists[k]| ==> s.lists[k][j] != s.lists[k][l]
    ensures forall k, j, l :: 0 <= k < |t.lists| && 0 <= j < l < |t.lists[k]| ==> t.lists[k][j] != t.lists[k][l]
  {
    forall k, j, l | 0 <= k < |t.lists| && 0 <= j < l < |t.lists[k]| ensures t.lists[k][j] != t.lists[k][l] {
      if k == i {
        assert t.lists[i][l] == s.lists[i][l - 1];
        if j > 0 { assert t.lists[i][j] == s.lists[i][j - 1]; }
      }
    }
  }

  lemma LinkStep(s: State, h: Handle)
    requires Inv(s) && h in s.pcs && s.pcs[h].Relock? && PcOk(s, s.pcs[h])
    ensures Inv(StepMove(s, h))
  {
    hide LocksOk, PlaceOk, DataOk, UniqueOk, RefsOk, PcsOk, InHands, ListsOk, ChainOk;
    var t, pc := StepMove(s, h), s.pcs[h];
    var i, v := Hash(s, pc.key), pc.v;
    LinkLists(s, i, v);
    AtLists(LinkHead(s, i, v), h, t.pcs[h]);
    HolderLocks(s, t, h);
    RefsKept(s, t, h);
    LinkPlace(s, t, v);
    HolderStep(s, t, h, v, i);
  }

  lemma LinkPlace(s: State, t: State, v: int)
    requires Inv(s) && Shape(t) && |t.bufs| == |s.bufs| && |t.head| == |s.head| && IsBuf(s, v) && s.bufs[v].refcnt == 0
    requires 0 <= t.at[v] && t.at == s.at[v := t.at[v]] && t.disk == s.disk && t.truth == s.truth && t.stray == s.stray
    requires forall b :: IsBuf(s, b) ==> t.bufs[b] == s.bufs[b].(next := t.bufs[b].next)
    requires forall b :: InHands(t, b) <==> b == v
    requires forall b :: InHands(s, b) <==> b == v
    ensures PlaceOk(t) && UniqueOk(t) && DataOk(t)
  {
    hide LocksOk, ListsOk, RefsOk, PcsOk, InHands;
    assert forall k :: Cached(t, k) <==> Cached(s, k);
  }

  // ---- re-labelling

  lemma ClaimStep(s: State, h: Handle)
    requires Inv(s) && h in s.pcs && s.pcs[h].Claim? && PcOk(s, s.pcs[h])
    ensures Inv(StepMove(s, h))
  {
    hide LocksOk, PlaceOk, DataOk, UniqueOk, RefsOk, PcsOk, InHands, ListsOk, ChainOk;
    var t, pc := StepMove(s, h), s.pcs[h];
    var i, v := Hash(s, pc.key), pc.v;
    CountLists(s, t, v);
    HolderLocks(s, t, h);
    RefsKept(s, t, h);
    ClaimPlace(s, t, v, pc.key);
    HolderStep(s, t, h, v, i);
  }

  /** The new label is unique, and both the old and the new block are up to date on disk. */
  lemma ClaimPlace(s: State, t: State, v: int, key: Key)
    requires Inv(s) && Shape(t) && |t.head| == |s.head| && IsBuf(s, v) && s.bufs[v].refcnt == 0 && key.dev != 0
    requires t.bufs == s.bufs[v := s.bufs[v].(key := key, refcnt := 1, valid := false)]
    requires t.at == s.at && t.disk == s.disk && t.truth == s.truth && t.stray == s.stray && s.at[v] == Hash(s, key) && NoMatch(s, key)
    requires forall b :: InHands(s, b) <==> b == v
    requires forall b :: IsBuf(s, b) ==> !InHands(t, b)
    ensures PlaceOk(t) && UniqueOk(t) && DataOk(t)
  {
    hide LocksOk, ListsOk, RefsOk, PcsOk, InHands;
    forall k: Key | k.dev != 0 && !Cached(t, k) && k !in t.stray ensures Get(t.disk, k) == Get(t.truth, k) {
      if Cached(s, k) {
        var b :| IsBuf(s, b) && s.bufs[b].valid && s.bufs[b].key == k;
        CachedElsewhere(s, t, v, b, k);
      }
    }
  }

  lemma CachedElsewhere(s: State, t: State, v: int, b: int, k: Key)
    requires IsBuf(s, v) && IsBuf(s, b) && |t.bufs| == |s.bufs| && (forall c :: IsBuf(s, c) && c != v ==> t.bufs[c] == s.bufs[c])
    requires s.bufs[b].valid && s.bufs[b].key == k && !Cached(t, k)
    ensures b == v
  {
  }

  lemma MoveInv(s: State, h: Handle)
    requires Inv(s) && Enabled(s, h, Go) && InMove(s.pcs[h])
    ensures PcOk(s, s.pcs[h]) && Inv(StepMove(s, h))
  {
    hide LocksOk, ListsOk, PlaceOk, UniqueOk, RefsOk, DataOk, PcOk, StepMove;
    assert PcOk(s, s.pcs[h]);
    match s.pcs[h]
    case Chosen(key, _, own, _) => if own == Hash(s, key) { ChosenStays(s, h); } else { UnlinkStep(s, h); }
    case Unlinked(_, _, _, _, _) => MoveUnlinked(s, h);
    case Gap(_, _, _, _) => MoveGap(s, h);
    case Relock(_, _, _, _) => LinkStep(s, h);
    case Claim(_, _, _, _) => ClaimStep(s, h);
    case Claimed(_, _) => MoveClaimed(s, h);
    case ClaimedFree(_, _) => MoveFree(s, h);
  }

  // ---------------------------------------------------------------- using a buffer

  lemma UseLocks(s: State, h: Handle, a: Action)
    requires Inv(s) && Enabled(s, h, a) && PcOk(s, s.pcs[h])
    requires s.pcs[h].SleepWait? || (s.pcs[h].Held? && a.DoRelease?)
    ensures Inv(StepUse(s, h, a))
  {
    hide LocksOk, ListsOk, PlaceOk, UniqueOk, RefsOk, DataOk, LocksMoved, PcsOk;
    var t := StepUse(s, h, a);
    MoveSleep(s, t, h, s.pcs[h].b);
    MoveOnly(s, t, h);
  }

  lemma UseStay(s: State, h: Handle, a: Action)
    requires Inv(s) && Enabled(s, h, a) && PcOk(s, s.pcs[h]) && s.pcs[h].Locked? && s.bufs[s.pcs[h].b].valid
    ensures Inv(StepUse(s, h, a))
  {
    hide LocksOk, ListsOk, PlaceOk, UniqueOk, RefsOk, DataOk, LocksMoved, PcsOk;
    var t := StepUse(s, h, a);
    NoLock(s, t, h);
    MoveOnly(s, t, h);
  }

  lemma UseWish(s: State, h: Handle, a: Action)
    requires Inv(s) && Enabled(s, h, a) && PcOk(s, s.pcs[h]) && s.pcs[h].Held? && (a.DoPin? || a.DoUnpin?)
    ensures Inv(StepUse(s, h, a))
  {
    hide LocksOk, ListsOk, PlaceOk, UniqueOk, RefsOk, DataOk, LocksMoved, PcsOk;
    var t := StepUse(s, h, a);
    NoLock(s, t, h);
    MoveOnly(s, t, h);
  }

  lemma UseLeave(s: State, h: Handle, a: Action)
    requires Inv(s) && Enabled(s, h, a) && PcOk(s, s.pcs[h]) && s.pcs[h].ReleaseCounted?
    ensures Inv(StepUse(s, h, a))
  {
    hide LocksOk, ListsOk, PlaceOk, UniqueOk, RefsOk, DataOk, LocksMoved, PcsOk;
    var t := StepUse(s, h, a);
    DropBucket(s, t, h, s.pcs[h].i);
    MoveOnly(s, t, h);
  }

  lemma UsePinned(s: State, h: Handle, a: Action)
    requires Inv(s) && Enabled(s, h, a) && PcOk(s, s.pcs[h]) && s.pcs[h].PinCounted?
    ensures Inv(StepUse(s, h, a))
  {
    hide LocksOk, ListsOk, PlaceOk, UniqueOk, RefsOk, DataOk, LocksMoved, PcsOk;
    var t := StepUse(s, h, a);
    DropBucket(s, t, h, Hash(s, s.pcs[h].key));
    MoveOnly(s, t, h);
  }

  lemma UseRelease(s: State, h: Handle, a: Action)
    requires Inv(s) && Enabled(s, h, a) && PcOk(s, s.pcs[h]) && s.pcs[h].Release?
    ensures Inv(StepUse(s, h, a))
  {
    hide LocksOk, ListsOk, PlaceOk, UniqueOk, RefsOk, DataOk, LocksMoved, PcsOk;
    var t, b := StepUse(s, h, a), s.pcs[h].b;
    RefCounts(s, h);
    DeviceOf(s, b);
    TakeBucket(s, t, h, Hash(s, s.pcs[h].key));
    RefsKept(s, t, h);
    CountStep(s, t, h, b);
  }

  lemma DeviceOf(s: State, b: int)
    requires Inv(s) && IsBuf(s, b) && s.bufs[b].refcnt > 0
    ensures s.bufs[b].key.dev != 0
  {
  }

  lemma UsePin(s: State, h: Handle, a: Action)
    requires Inv(s) && Enabled(s, h, a) && PcOk(s, s.pcs[h]) && s.pcs[h].Pin?
    ensures Inv(StepUse(s, h, a))
  {
    hide LocksOk, ListsOk, PlaceOk, UniqueOk, RefsOk, DataOk, LocksMoved, PcsOk;
    var t, b := StepUse(s, h, a), s.pcs[h].b;
    RefCounts(s, h);
    DeviceOf(s, b);
    TakeBucket(s, t, h, Hash(s, s.pcs[h].key));
    RefsKept(s, t, h);
    CountStep(s, t, h, b);
  }

  /** New contents for a referenced buffer: read from disk, or written by its lock holder. */
  lemma DataStep(s: State, t: State, h: Handle, b: int, d: Data)
    requires Inv(s) && Shape(t) && LocksMoved(s, t, h) && VictimOf(s.pcs[h]) == VictimOf(t.pcs[h]) == -1
    requires RefOf(t.pcs[h]) == RefOf(s.pcs[h]) && PcOk(t, t.pcs[h])
    requires IsBuf(s, b) && s.bufs[b].refcnt > 0 && t.bufs == s.bufs[b := s.bufs[b].(data := d, valid := true)]
    requires t.head == s.head && t.lists == s.lists && t.at == s.at && t.pins == s.pins && t.disk == s.disk
    requires s.bufs[b].key !in t.stray ==> Get(t.truth, s.bufs[b].key) == d
    requires forall k :: k != s.bufs[b].key ==> Get(t.truth, k) == Get(s.truth, k) && (k in t.stray <==> k in s.stray)
    ensures Inv(t)
  {
    hide PlaceOk, DataOk, ListsOk, RefsOk, UniqueOk, InHands, PcOk;
    LocksKept(s, t, h);
    HandsSame(s, t, h);
    RefsKept(s, t, h);
    CountLists(s, t, b);
    hide LocksMoved;
    DataRest(s, t, b, d);
    forall g | g in t.pcs ensures PcOk(t, t.pcs[g]) {
      if g != h { DataPc(s, t, b, s.pcs[g]); }
    }
  }

  lemma DataPc(s: State, t: State, b: int, pc: Pc)
    requires Shape(s) && Shape(t) && PcOk(s, pc) && IsBuf(s, b) && s.bufs[b].refcnt > 0
    requires t.head == s.head && t.lists == s.lists && t.at == s.at && t.pins == s.pins && |t.bufs| == |s.bufs|
    requires t.bufs == s.bufs[b := s.bufs[b].(data := t.bufs[b].data, valid := true)]
    ensures PcOk(t, pc)
  {
  }

  lemma DataRest(s: State, t: State, b: int, d: Data)
    requires Inv(s) && Shape(t) && IsBuf(s, b) && s.bufs[b].refcnt > 0
    requires t.bufs == s.bufs[b := s.bufs[b].(data := d, valid := true)]
    requires t.head == s.head && t.at == s.at && t.disk == s.disk
    requires forall c :: c >= 0 ==> (InHands(t, c) <==> InHands(s, c))
    requires s.bufs[b].key !in t.stray ==> Get(t.truth, s.bufs[b].key) == d
    requires forall k :: k != s.bufs[b].key ==> Get(t.truth, k) == Get(s.truth, k) && (k in t.stray <==> k in s.stray)
    ensures PlaceOk(t) && UniqueOk(t) && DataOk(t)
  {
    hide LocksOk, ListsOk, RefsOk, PcsOk, InHands;
    var key := s.bufs[b].key;
    forall k: Key | k.dev != 0 && !Cached(t, k) && k !in t.stray ensures Get(t.disk, k) == Get(t.truth, k) {
      assert k != key by { assert t.bufs[b].valid && t.bufs[b].key == key; }
      forall c | IsBuf(s, c) && s.bufs[c].valid ensures s.bufs[c].key != k { assert t.bufs[c].valid && t.bufs[c].key == s.bufs[c].key; }
      assert !Cached(s, k);
    }
  }

  /** The first lock holder of a just-claimed buffer reads it: the disk is up to date. */
  lemma UseRead(s: State, h: Handle, a: Action)
    requires Inv(s) && Enabled(s, h, a) && PcOk(s, s.pcs[h]) && s.pcs[h].Locked? && !s.bufs[s.pcs[h].b].valid
    ensures Inv(StepUse(s, h, a))
  {
    hide LocksOk, ListsOk, PlaceOk, UniqueOk, RefsOk, DataOk, LocksMoved, PcsOk;
    var t, b, key := StepUse(s, h, a), s.pcs[h].b, s.pcs[h].key;
    RefCounts(s, h);
    NotCached(s, b);
    NoLock(s, t, h);
    DataStep(s, t, h, b, Get(s.disk, key));
  }

  lemma NotCached(s: State, b: int)
    requires Inv(s) && IsBuf(s, b) && !s.bufs[b].valid && s.bufs[b].key.dev != 0
    ensures s.bufs[b].key !in s.stray ==> Get(s.disk, s.bufs[b].key) == Get(s.truth, s.bufs[b].key)
  {
    hide LocksOk, ListsOk, RefsOk, PcsOk, PlaceOk;
    assert !Cached(s, s.bufs[b].key);
  }

  lemma UseWrite(s: State, h: Handle, a: Action)
    requires Inv(s) && Enabled(s, h, a) && PcOk(s, s.pcs[h]) && s.pcs[h].Held? && a.SetData?
    ensures Inv(StepUse(s, h, a))
  {
    hide LocksOk, ListsOk, PlaceOk, UniqueOk, RefsOk, DataOk, LocksMoved, PcsOk;
    var t, b := StepUse(s, h, a), s.pcs[h].b;
    RefCounts(s, h);
    NoLock(s, t, h);
    assert s.pcs[h := s.pcs[h]] == s.pcs;
    DataStep(s, t, h, b, a.d);
  }

  lemma UseWriteBack(s: State, h: Handle, a: Action)
    requires Inv(s) && Enabled(s, h, a) && PcOk(s, s.pcs[h]) && s.pcs[h].Held? && a.WriteBack?
    ensures Inv(StepUse(s, h, a))
  {
    var t := StepUse(s, h, a);
    RefCounts(s, h);
    hide LocksOk, RefsOk;
    WriteBackRest(s, t, s.pcs[h].b);
    assert LocksOk(t) && RefsOk(t) by { SameHolders(s, t); }
    forall g | g in t.pcs ensures PcOk(t, t.pcs[g]) { PcSame(s, t, s.pcs[g]); }
  }

  lemma SameHolders(s: State, t: State)
    requires Shape(s) && LocksOk(s) && RefsOk(s) && t == s.(disk := t.disk, stray := t.stray)
    ensures Shape(t) && LocksOk(t) && RefsOk(t)
  {
    hide Buckets, IsGlobal, SleepOf;
  }

  lemma WriteBackRest(s: State, t: State, b: int)
    requires Inv(s) && IsBuf(s, b) && s.bufs[b].valid && t == s.(disk := s.disk[s.bufs[b].key := s.bufs[b].data], stray := t.stray)
    requires t.stray == if s.bufs[b].data == Get(s.truth, s.bufs[b].key) then s.stray - {s.bufs[b].key} else s.stray
    requires s.bufs[b].refcnt > 0
    ensures Shape(t) && ListsOk(t) && PlaceOk(t) && UniqueOk(t) && DataOk(t)
  {
    hide LocksOk, RefsOk, PcsOk;
    forall i | 0 <= i < |t.lists| ensures ChainOk(t, i) { assert ChainOk(s, i); }
    assert forall k :: Cached(t, k) <==> Cached(s, k);
    assert forall c :: InHands(t, c) <==> InHands(s, c);
    assert Cached(s, s.bufs[b].key);
  }

  lemma UseInv(s: State, h: Handle, a: Action)
    requires Inv(s) && Enabled(s, h, a) && !InLookup(s.pcs[h]) && !InScan(s.pcs[h]) && !InMove(s.pcs[h])
    ensures PcOk(s, s.pcs[h]) && Inv(StepUse(s, h, a))
  {
    hide LocksOk, ListsOk, PlaceOk, UniqueOk, RefsOk, DataOk, PcOk, StepUse;
    assert PcOk(s, s.pcs[h]);
    match s.pcs[h]
    case SleepWait(_, _) => UseLocks(s, h, a);
    case Locked(_, b) => BufOf(s, s.pcs[h]); if s.bufs[b].valid { UseStay(s, h, a); } else { UseRead(s, h, a); }
    case Held(_, _) =>
      if a.SetData? { UseWrite(s, h, a); }
      else if a.WriteBack? { UseWriteBack(s, h, a); }
      else if a.DoRelease? { UseLocks(s, h, a); }
      else { UseWish(s, h, a); }
    case Release(_, _) => UseRelease(s, h, a);
    case Pin(_, _, _) => UsePin(s, h, a);
    case PinCounted(_, _) => UsePinned(s, h, a);
    case _ => UseLeave(s, h, a);
  }

  lemma BufOf(s: State, pc: Pc)
    requires Shape(s) && PcOk(s, pc) && HasRef(pc)
    ensures IsBuf(s, RefOf(pc))
  {
  }

  /** Every step keeps the invariant. */
  lemma StepInv(s: State, h: Handle, a: Action)
    requires Inv(s) && Enabled(s, h, a)
    ensures PcOk(s, s.pcs[h]) && Inv(Step(s, h, a))
  {
    hide LocksOk, ListsOk, PlaceOk, UniqueOk, RefsOk, DataOk, PcOk;
    hide StepLookup, StepScan, StepMove, StepUse;
    assert PcOk(s, s.pcs[h]);
    if InLookup(s.pcs[h]) { LookupInv(s, h, a); }
    else if InScan(s.pcs[h]) { ScanInv(s, h); }
    else if InMove(s.pcs[h]) { MoveInv(s, h); }
    else { UseInv(s, h, a); }
  }
}
