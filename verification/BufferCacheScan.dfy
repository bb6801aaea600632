/** What bget promises about its searches (xv6-lab-locks/bio.c:67-168): it misses only what is not
    there, looks at every buffer before it takes one or panics, and takes the least recently used. */
module BufferCacheScan {
  import opened Common
  import opened BufferCache
  import opened BufferCacheProof
  import opened BufferCacheRuns

  // ---------------------------------------------------------------- a locked bucket stands still

  /** The chain of bucket i and the counts, times and blocks of its buffers are the same. */
  ghost predicate BucketSame(s: State, t: State, i: nat) {
    && i < |s.lists| && i < |t.lists| && t.lists[i] == s.lists[i] && |t.bufs| == |s.bufs|
    && forall q :: 0 <= q < |s.lists[i]| && IsBuf(s, s.lists[i][q]) ==>
         var x, y := s.bufs[s.lists[i][q]], t.bufs[s.lists[i][q]];
         y.refcnt == x.refcnt && y.time == x.time && y.key == x.key
  }

  /** Apart from one buffer that is on another chain, counts, times and blocks are the same. */
  lemma OtherBucket(s: State, t: State, i: nat, b: int)
    requires Shape(s) && ListsOk(s) && i < |s.lists| && |t.lists| == |s.lists| && t.lists[i] == s.lists[i] && |t.bufs| == |s.bufs|
    requires IsBuf(s, b) ==> s.at[b] != i
    requires forall c :: IsBuf(s, c) && c != b ==> t.bufs[c].refcnt == s.bufs[c].refcnt && t.bufs[c].time == s.bufs[c].time && t.bufs[c].key == s.bufs[c].key
    ensures BucketSame(s, t, i)
  {
    forall q | 0 <= q < |s.lists[i]| && IsBuf(s, s.lists[i][q]) ensures s.lists[i][q] != b { assert s.at[s.lists[i][q]] == i; }
  }

  /** The chains are the same, and so are counts, times and blocks of all buffers but b. */
  ghost predicate AllBut(s: State, t: State, b: int) {
    && |t.bufs| == |s.bufs| && |t.head| == |s.head| && t.lists == s.lists && t.at == s.at
    && forall c :: IsBuf(s, c) && c != b ==> t.bufs[c].refcnt == s.bufs[c].refcnt && t.bufs[c].time == s.bufs[c].time && t.bufs[c].key == s.bufs[c].key
  }

  /** The buffer whose count the next step of pc may change, or that it re-labels. */
  function Touches(pc: Pc): int {
    match pc
    case Walk1(_, _, b) => b
    case Hit2(_, b) => b
    case Claim(_, v, _, _) => v
    case Release(_, b) => b
    case Pin(_, b, _) => b
    case _ => -1
  }

  lemma LookupTouches(s: State, g: Handle, a: Action)
    requires Shape(s) && Enabled(s, g, a) && PcOk(s, s.pcs[g]) && InLookup(s.pcs[g])
    ensures var t := StepLookup(s, g, a); AllBut(s, t, Touches(s.pcs[g])) && t.pcs == s.pcs[g := t.pcs[g]]
  {
  }

  lemma ScanTouches(s: State, g: Handle)
    requires Shape(s) && g in s.pcs && PcOk(s, s.pcs[g]) && InScan(s.pcs[g])
    ensures var t := StepScan(s, g); AllBut(s, t, -1) && t.pcs == s.pcs[g := t.pcs[g]]
  {
  }

  lemma UseTouches(s: State, g: Handle, a: Action)
    requires Shape(s) && Enabled(s, g, a) && PcOk(s, s.pcs[g]) && !InLookup(s.pcs[g]) && !InScan(s.pcs[g]) && !InMove(s.pcs[g])
    ensures var t := StepUse(s, g, a); AllBut(s, t, Touches(s.pcs[g])) && t.pcs == s.pcs[g := t.pcs[g]]
  {
  }

  /** The bucket of that buffer is locked by g or about to be. */
  lemma TouchedBucket(s: State, g: Handle, a: Action, h: Handle, i: nat)
    requires Inv(s) && Enabled(s, g, a) && PcOk(s, s.pcs[g]) && g != h && i < |s.block| && s.block[i] == Some(h)
    ensures IsBuf(s, Touches(s.pcs[g])) ==> s.at[Touches(s.pcs[g])] != i
  {
    hide PlaceOk, UniqueOk, RefsOk, DataOk, PcsOk, ListsOk;
    MyLocks(s, g);
    hide LocksOk;
    if s.pcs[g].Walk1? && IsBuf(s, s.pcs[g].b) { WalkAt(s, s.pcs[g]); }
    if HasRef(s.pcs[g]) { RefCounts(s, g); }
  }

  lemma SameBucket(s: State, g: Handle, a: Action, t: State, h: Handle, i: nat)
    requires Inv(s) && Enabled(s, g, a) && PcOk(s, s.pcs[g]) && g != h && i < |s.block| && s.block[i] == Some(h)
    requires AllBut(s, t, Touches(s.pcs[g]))
    ensures BucketSame(s, t, i)
  {
    TouchedBucket(s, g, a, h, i);
    hide PlaceOk, UniqueOk, RefsOk, DataOk, PcsOk, ListsOk, LocksOk, PcOk, Enabled, Touches;
    OtherBucket(s, t, i, Touches(s.pcs[g]));
  }

  lemma MoveLeaves(s: State, g: Handle, h: Handle, i: nat)
    requires Inv(s) && Enabled(s, g, Go) && PcOk(s, s.pcs[g]) && InMove(s.pcs[g]) && g != h && i < |s.block| && s.block[i] == Some(h)
    ensures var t := StepMove(s, g); BucketSame(s, t, i) && t.pcs == s.pcs[g := t.pcs[g]]
  {
    hide LocksOk, ListsOk, PlaceOk, UniqueOk, RefsOk, DataOk, PcsOk, BucketSame, PcOk, StepMove, AllBut;
    var t := StepMove(s, g);
    if s.pcs[g].Chosen? {
      ChosenLeaves(s, g, h, i);
    } else if s.pcs[g].Relock? {
      RelockLeaves(s, g, h, i);
    } else {
      MoveTouches(s, g);
      SameBucket(s, g, Go, t, h, i);
    }
  }

  lemma MoveTouches(s: State, g: Handle)
    requires Inv(s) && Enabled(s, g, Go) && PcOk(s, s.pcs[g]) && InMove(s.pcs[g]) && !s.pcs[g].Chosen? && !s.pcs[g].Relock?
    ensures var t := StepMove(s, g); AllBut(s, t, Touches(s.pcs[g])) && t.pcs == s.pcs[g := t.pcs[g]]
  {
    hide PlaceOk, UniqueOk, RefsOk, DataOk, PcsOk, ListsOk, LocksOk;
  }

  lemma ChosenLeaves(s: State, g: Handle, h: Handle, i: nat)
    requires Inv(s) && g in s.pcs && PcOk(s, s.pcs[g]) && s.pcs[g].Chosen? && g != h && i < |s.block| && s.block[i] == Some(h)
    ensures var t := StepMove(s, g); BucketSame(s, t, i) && t.pcs == s.pcs[g := t.pcs[g]]
  {
    hide PlaceOk, UniqueOk, RefsOk, DataOk, PcsOk, ListsOk, Unlink;
    var pc := s.pcs[g];
    MyLocks(s, g);
    assert pc.best.o != i;
    hide LocksOk;
    BeforeOk(s, pc.best.o, pc.best.q);
    UnlinkBufs(s, pc.best.o, pc.best.q, pc.best.before, pc.best.v);
    OtherBucket(s, StepMove(s, g), i, -1);
  }

  lemma RelockLeaves(s: State, g: Handle, h: Handle, i: nat)
    requires Inv(s) && g in s.pcs && PcOk(s, s.pcs[g]) && s.pcs[g].Relock? && g != h && i < |s.block| && s.block[i] == Some(h)
    ensures var t := StepMove(s, g); BucketSame(s, t, i) && t.pcs == s.pcs[g := t.pcs[g]]
  {
    hide PlaceOk, UniqueOk, RefsOk, DataOk, PcsOk, ListsOk;
    MyLocks(s, g);
    assert Hash(s, s.pcs[g].key) != i;
    hide LocksOk;
    OtherBucket(s, StepMove(s, g), i, -1);
  }

  /** While h holds the lock of bucket i, nobody else changes that bucket. */
  lemma OthersLeave(s: State, g: Handle, a: Action, t: State, h: Handle, i: nat)
    requires Inv(s) && Moves(s, g, a, t) && g != h && h in s.pcs && i < |s.block| && s.block[i] == Some(h)
    ensures BucketSame(s, t, i) && h in t.pcs && t.pcs[h] == s.pcs[h]
  {
    InvShape(s);
    hide Inv, BucketSame, AllBut, StepLookup, StepScan, StepMove, StepUse, PcOk, ListsOk, Shape, Enabled;
    if InMove(s.pcs[g]) { MoveLeaves(s, g, h, i); return; }
    if InLookup(s.pcs[g]) { LookupTouches(s, g, a); }
    else if InScan(s.pcs[g]) { ScanTouches(s, g); }
    else { UseTouches(s, g, a); }
    SameBucket(s, g, a, t, h, i);
  }

  /** Without the global lock nobody moves a buffer from chain to chain. */
  lemma OthersMoveNothing(s: State, g: Handle, a: Action, t: State, h: Handle)
    requires Inv(s) && Moves(s, g, a, t) && g != h && h in s.pcs && IsGlobal(s.pcs[h])
    ensures h in t.pcs && t.pcs[h] == s.pcs[h] && t.at == s.at && t.lists == s.lists && |t.bufs| == |s.bufs|
  {
    InvShape(s);
    HandsOfInv(s, h);
    hide Inv, StepLookup, StepScan, StepMove, StepUse, PcOk, ListsOk, Shape, Enabled, IsGlobal;
    MoveIsGlobal(s.pcs[g]);
    if InLookup(s.pcs[g]) { LookupTouches(s, g, a); }
    else if InScan(s.pcs[g]) { ScanTouches(s, g); }
    else if !InMove(s.pcs[g]) { UseTouches(s, g, a); }
  }

  lemma HandsOfInv(s: State, h: Handle)
    requires Inv(s) && h in s.pcs && IsGlobal(s.pcs[h])
    ensures s.global == Some(h) && forall g :: g in s.pcs && g != h ==> !IsGlobal(s.pcs[g])
  {
    hide PlaceOk, UniqueOk, RefsOk, DataOk, PcsOk, ListsOk;
    HandsOf(s, h);
  }

  lemma MoveIsGlobal(pc: Pc)
    ensures InMove(pc) ==> IsGlobal(pc)
  {
  }

  // ---------------------------------------------------------------- what the scan has looked at

  /** The search for a victim, and what follows until the victim is re-labelled. */
  predicate Searching(pc: Pc) {
    InScan(pc) || pc.Panicked? || pc.Chosen? || pc.Unlinked? || pc.Gap? || pc.Relock? || pc.Claim?
  }

  function SeenOf(pc: Pc): seq<nat> { if Searching(pc) && !pc.Panicked? then pc.seen else [] }

  /** The free buffers among the first j of the bucket have their times in seen. */
  ghost predicate Scanned(s: State, i: nat, j: nat, seen: seq<nat>) {
    && i < |s.lists| && j <= |s.lists[i]|
    && forall q :: 0 <= q < j ==> IsBuf(s, s.lists[i][q]) && (s.bufs[s.lists[i][q]].refcnt == 0 ==> s.bufs[s.lists[i][q]].time in seen)
  }

  lemma ScannedSame(s: State, t: State, i: nat, j: nat, seen: seq<nat>)
    requires Scanned(s, i, j, seen) && BucketSame(s, t, i)
    ensures Scanned(t, i, j, seen)
  {
  }

  /** A step of the scan: where it came from, and what it has looked at. */
  lemma ScanStep(s: State, h: Handle)
    requires Shape(s) && ListsOk(s) && h in s.pcs && PcOk(s, s.pcs[h]) && InScan(s.pcs[h])
    requires s.pcs[h].Scan? ==> Scanned(s, s.pcs[h].i, s.pcs[h].j, s.pcs[h].seen)
    ensures var t, pc, pc' := StepScan(s, h), s.pcs[h], StepScan(s, h).pcs[h];
      && Searching(pc') && (forall x :: x in SeenOf(pc) ==> x in SeenOf(pc'))
      && (pc'.Scan? ==> pc'.i == pc.i && Scanned(t, pc'.i, pc'.j, pc'.seen))
      && (pc'.ScanNext? ==> pc.Scan? && pc'.i == pc.i + 1 && Scanned(s, pc.i, |s.lists[pc.i]|, pc'.seen))
      && (!InScan(pc') ==> pc.ScanNext? && pc.i == |s.head|)
  {
    hide ListsOk;
    var pc := s.pcs[h];
    if pc.Scan? {
      PtrNext(s, pc.i, pc.j);
    }
  }

  lemma MoveStep(s: State, h: Handle)
    requires Shape(s) && ListsOk(s) && h in s.pcs && PcOk(s, s.pcs[h]) && InMove(s.pcs[h])
    ensures var pc, pc' := s.pcs[h], StepMove(s, h).pcs[h]; Searching(pc') ==> Searching(pc) && !InScan(pc) && !InScan(pc') && SeenOf(pc') == SeenOf(pc)
  {
    hide ListsOk, Unlink;
    if s.pcs[h].Chosen? { BeforeOk(s, s.pcs[h].best.o, s.pcs[h].best.q); }
  }

  lemma LookupEnds(s: State, h: Handle, a: Action)
    requires Shape(s) && Enabled(s, h, a) && PcOk(s, s.pcs[h]) && InLookup(s.pcs[h])
    ensures var pc' := StepLookup(s, h, a).pcs[h]; Searching(pc') ==> pc'.ScanNext? && pc'.i == 0
  {
    hide PcOk, Shape;
  }

  lemma UseEnds(s: State, h: Handle, a: Action)
    requires Shape(s) && Enabled(s, h, a) && PcOk(s, s.pcs[h]) && !InLookup(s.pcs[h]) && !InScan(s.pcs[h]) && !InMove(s.pcs[h])
    ensures !Searching(StepUse(s, h, a).pcs[h])
  {
  }

  /** One step of a run, as the searches see it: nobody, somebody else, or h itself. */
  lemma StepBack(s: State, t: State, h: Handle)
    requires Inv(s) && Next(s, t) && h in t.pcs && Searching(t.pcs[h])
    requires h in s.pcs && s.pcs[h].Scan? ==> Scanned(s, s.pcs[h].i, s.pcs[h].j, s.pcs[h].seen)
    ensures h in s.pcs
    ensures t.pcs[h].Scan? ==> Scanned(t, t.pcs[h].i, t.pcs[h].j, t.pcs[h].seen)
    ensures (t.pcs[h].ScanNext? && t.pcs[h].i == 0) || Continues(s, t, h)
  {
    InvShape(s);
    hide Inv, Enabled, PcOk, Step, ListsOk, Shape, Scanned, Continues;
    if t == s.(ticks := s.ticks + 1) {
      Ticked(s, t, h);
    } else {
      var g, a :| Moves(s, g, a, t);
      if g == h { OwnStep(s, a, t, h); } else { OtherStep(s, g, a, t, h); }
    }
  }

  /** h was searching before the step, has forgotten nothing, and has finished at most one bucket. */
  ghost predicate Continues(s: State, t: State, h: Handle) {
    && h in s.pcs && h in t.pcs && Searching(s.pcs[h]) && |t.bufs| == |s.bufs| && |t.head| == |s.head|
    && (forall x :: x in SeenOf(s.pcs[h]) ==> x in SeenOf(t.pcs[h]))
    && (InScan(t.pcs[h]) ==> InScan(s.pcs[h]) && t.at == s.at && (t.pcs[h].i == s.pcs[h].i || (s.pcs[h].Scan? && Finishes(s, s.pcs[h].i, t.pcs[h]))))
    && (InScan(s.pcs[h]) && !InScan(t.pcs[h]) ==> s.pcs[h].i == |s.head|)
  }

  ghost predicate Finishes(s: State, i: nat, pc: Pc) {
    InScan(pc) && pc.i == i + 1 && i < |s.lists| && Scanned(s, i, |s.lists[i]|, SeenOf(pc))
  }

  lemma Ticked(s: State, t: State, h: Handle)
    requires t == s.(ticks := s.ticks + 1) && h in t.pcs && Searching(t.pcs[h])
    requires s.pcs[h].Scan? ==> Scanned(s, s.pcs[h].i, s.pcs[h].j, s.pcs[h].seen)
    ensures t.pcs[h].Scan? ==> Scanned(t, t.pcs[h].i, t.pcs[h].j, t.pcs[h].seen)
    ensures Continues(s, t, h)
  {
  }

  lemma OtherStep(s: State, g: Handle, a: Action, t: State, h: Handle)
    requires Inv(s) && Moves(s, g, a, t) && g != h && h in t.pcs && Searching(t.pcs[h])
    requires h in s.pcs && s.pcs[h].Scan? ==> Scanned(s, s.pcs[h].i, s.pcs[h].j, s.pcs[h].seen)
    ensures h in s.pcs && (t.pcs[h].Scan? ==> Scanned(t, t.pcs[h].i, t.pcs[h].j, t.pcs[h].seen)) && Continues(s, t, h)
  {
    SamePc(s, g, a, t, h);
    SearchIsGlobal(s.pcs[h]);
    OthersMoveNothing(s, g, a, t, h);
    HeadsSame(s, g, a, t);
    if s.pcs[h].Scan? {
      ScanHolds(s, h);
      OthersLeave(s, g, a, t, h, s.pcs[h].i);
      ScannedSame(s, t, s.pcs[h].i, s.pcs[h].j, s.pcs[h].seen);
    }
    hide Inv, Moves, Scanned;
  }

  lemma SearchIsGlobal(pc: Pc)
    ensures Searching(pc) ==> IsGlobal(pc)
  {
  }

  lemma ScanHolds(s: State, h: Handle)
    requires Inv(s) && h in s.pcs && s.pcs[h].Scan?
    ensures s.pcs[h].i < |s.block| && s.block[s.pcs[h].i] == Some(h)
  {
    hide PlaceOk, UniqueOk, RefsOk, DataOk, ListsOk;
    assert PcOk(s, s.pcs[h]);
    MyLocks(s, h);
  }

  lemma SamePc(s: State, g: Handle, a: Action, t: State, h: Handle)
    requires Inv(s) && Moves(s, g, a, t) && g != h && h in t.pcs
    ensures h in s.pcs && t.pcs[h] == s.pcs[h]
  {
    InvShape(s);
    hide Inv, StepLookup, StepScan, StepMove, StepUse, PcOk, ListsOk, Shape, Enabled, AllBut;
    if InMove(s.pcs[g]) { MovePcs(s, g); }
    else if InLookup(s.pcs[g]) { LookupTouches(s, g, a); }
    else if InScan(s.pcs[g]) { ScanTouches(s, g); }
    else { UseTouches(s, g, a); }
  }

  lemma MovePcs(s: State, g: Handle)
    requires Shape(s) && g in s.pcs && PcOk(s, s.pcs[g]) && InMove(s.pcs[g]) && ListsOk(s)
    ensures var t := StepMove(s, g); t.pcs == s.pcs[g := t.pcs[g]] && |t.bufs| == |s.bufs| && |t.head| == |s.head|
  {
    hide ListsOk, Unlink;
    var pc := s.pcs[g];
    if pc.Chosen? {
      BeforeOk(s, pc.best.o, pc.best.q);
      UnlinkBufs(s, pc.best.o, pc.best.q, pc.best.before, pc.best.v);
    }
  }

  lemma HeadsSame(s: State, g: Handle, a: Action, t: State)
    requires Moves(s, g, a, t)
    ensures |t.head| == |s.head| && |t.bufs| == |s.bufs|
  {
    hide PcOk, ListsOk, Shape, Enabled, StepLookup, StepScan, StepMove, StepUse;
    if InMove(s.pcs[g]) { MovePcs(s, g); }
    else if InLookup(s.pcs[g]) { LookupTouches(s, g, a); }
    else if InScan(s.pcs[g]) { ScanTouches(s, g); }
    else { UseTouches(s, g, a); }
  }

  lemma OwnStep(s: State, a: Action, t: State, h: Handle)
    requires Inv(s) && Moves(s, h, a, t) && h in t.pcs && Searching(t.pcs[h])
    requires h in s.pcs && s.pcs[h].Scan? ==> Scanned(s, s.pcs[h].i, s.pcs[h].j, s.pcs[h].seen)
    ensures t.pcs[h].Scan? ==> Scanned(t, t.pcs[h].i, t.pcs[h].j, t.pcs[h].seen)
    ensures (t.pcs[h].ScanNext? && t.pcs[h].i == 0) || Continues(s, t, h)
  {
    HeadsSame(s, h, a, t);
    hide Inv, StepLookup, StepScan, StepMove, StepUse, PcOk, ListsOk, Shape, Enabled, Scanned, AllBut;
    if InLookup(s.pcs[h]) { LookupEnds(s, h, a); }
    else if InScan(s.pcs[h]) { ScanStep(s, h); ScanTouches(s, h); ScanAt(s, h); }
    else if InMove(s.pcs[h]) { MoveStep(s, h); }
    else { UseEnds(s, h, a); }
  }

  lemma ScanAt(s: State, h: Handle)
    requires Shape(s) && h in s.pcs && PcOk(s, s.pcs[h]) && InScan(s.pcs[h])
    ensures StepScan(s, h).at == s.at && (s.pcs[h].Scan? ==> s.pcs[h].i < |s.lists|)
  {
  }

  // ---------------------------------------------------------------- runs

  /** In every run the scan knows the free buffers it has passed in the bucket it holds. */
  lemma {:induction false} RunScanned(run: seq<State>, n: nat, h: Handle)
    requires IsRun(run) && n < |run| && h in run[n].pcs && run[n].pcs[h].Scan?
    ensures Scanned(run[n], run[n].pcs[h].i, run[n].pcs[h].j, run[n].pcs[h].seen)
    decreases n
  {
    hide Inv, Next, Scanned, Continues;
    if n == 0 {
      NobodySearches(run[0], h);
    } else {
      RunInv(run, n - 1);
      if h in run[n - 1].pcs && run[n - 1].pcs[h].Scan? { RunScanned(run, n - 1, h); }
      StepBack(run[n - 1], run[n], h);
    }
  }

  lemma NobodySearches(s: State, h: Handle)
    requires Init(s)
    ensures h in s.pcs ==> !Searching(s.pcs[h])
  {
  }

  /** At moment m, h held the global lock and the lock of b's bucket, and b was in use then or its time
      is in seen; h has kept the global lock until n. */
  ghost predicate Examined(run: seq<State>, m: nat, n: nat, h: Handle, b: int, seen: seq<nat>) {
    && m <= n < |run| && (forall x :: m <= x <= n ==> run[x].global == Some(h))
    && IsBuf(run[m], b) && b < |run[m].at| && 0 <= run[m].at[b] < |run[m].block| && run[m].block[run[m].at[b]] == Some(h)
    && (run[m].bufs[b].refcnt == 0 ==> run[m].bufs[b].time in seen)
  }

  /** While no victim is in hand every buffer is on the chain of some bucket. */
  lemma OnSomeChain(s: State, h: Handle, b: int)
    requires Inv(s) && h in s.pcs && InScan(s.pcs[h]) && IsBuf(s, b)
    ensures b < |s.at| && 0 <= s.at[b] < |s.head| && s.at[b] < |s.lists| && b in s.lists[s.at[b]] && s.global == Some(h)
  {
    hide UniqueOk, RefsOk, DataOk, PcsOk;
    HandsOf(s, h);
  }

  /** Bucket i is finished: b, which is on its chain, has just been examined. */
  lemma JustExamined(run: seq<State>, n: nat, h: Handle, b: int, i: nat, seen: seq<nat>)
    requires n < |run| && Inv(run[n]) && h in run[n].pcs && run[n].pcs[h].Scan? && run[n].pcs[h].i == i && IsBuf(run[n], b)
    requires b < |run[n].at| && run[n].at[b] == i < |run[n].lists| && Scanned(run[n], i, |run[n].lists[i]|, seen)
    ensures Examined(run, n, n, h, b, seen)
  {
    hide Inv;
    OnSomeChain(run[n], h, b);
    ScanHolds(run[n], h);
    var q :| 0 <= q < |run[n].lists[i]| && run[n].lists[i][q] == b;
  }

  lemma ExaminedMore(run: seq<State>, m: nat, n: nat, h: Handle, b: int, seen: seq<nat>, seen': seq<nat>)
    requires Examined(run, m, n, h, b, seen) && n + 1 < |run| && run[n + 1].global == Some(h) && forall x :: x in seen ==> x in seen'
    ensures Examined(run, m, n + 1, h, b, seen')
  {
  }

  /** In every run: the buffers of the buckets that a scan has finished were all examined, each under its
      bucket's lock. */
  lemma {:induction false} ScanExamines(run: seq<State>, n: nat, h: Handle, b: int) returns (m: nat)
    requires IsRun(run) && n < |run| && h in run[n].pcs && Searching(run[n].pcs[h]) && IsBuf(run[n], b)
    requires InScan(run[n].pcs[h]) ==> b < |run[n].at| && run[n].at[b] < run[n].pcs[h].i
    ensures Examined(run, m, n, h, b, SeenOf(run[n].pcs[h]))
    decreases n
  {
    hide IsRun, Examined, SeenOf, InScan, Searching;
    if n == 0 {
      FirstState(run);
      NobodySearches(run[n], h);
    } else {
      var now := ExaminedBefore(run, n - 1, h, b);
      if now {
        m := n - 1;
        ExaminedMore(run, m, n - 1, h, b, SeenOf(run[n].pcs[h]), SeenOf(run[n].pcs[h]));
      } else {
        m := ScanExamines(run, n - 1, h, b);
        ExaminedMore(run, m, n - 1, h, b, SeenOf(run[n - 1].pcs[h]), SeenOf(run[n].pcs[h]));
      }
    }
  }

  /** One step back: b has just been examined, or it was before. */
  lemma ExaminedBefore(run: seq<State>, n: nat, h: Handle, b: int) returns (now: bool)
    requires IsRun(run) && n + 1 < |run| && h in run[n + 1].pcs && Searching(run[n + 1].pcs[h]) && IsBuf(run[n + 1], b)
    requires InScan(run[n + 1].pcs[h]) ==> b < |run[n + 1].at| && run[n + 1].at[b] < run[n + 1].pcs[h].i
    ensures run[n + 1].global == Some(h) && h in run[n].pcs && Searching(run[n].pcs[h]) && IsBuf(run[n], b)
    ensures forall x :: x in SeenOf(run[n].pcs[h]) ==> x in SeenOf(run[n + 1].pcs[h])
    ensures now ==> Examined(run, n, n, h, b, SeenOf(run[n + 1].pcs[h]))
    ensures !now && InScan(run[n].pcs[h]) ==> b < |run[n].at| && run[n].at[b] < run[n].pcs[h].i
  {
    var s, t := run[n], run[n + 1];
    RunInv(run, n);
    RunInv(run, n + 1);
    OneStep(run, n);
    if h in s.pcs && s.pcs[h].Scan? { RunScanned(run, n, h); }
    hide IsRun, Inv, Next, Scanned, Examined, SeenOf, InScan, Searching, Continues;
    SearchIsGlobal(t.pcs[h]);
    HandsOfInv(t, h);
    if InScan(t.pcs[h]) { OnSomeChain(t, h, b); }
    StepBack(s, t, h);
    assert Continues(s, t, h) by { ScanIsIn(t.pcs[h]); }
    Before(s, t, h, b);
    now := InScan(t.pcs[h]) && s.at[b] == s.pcs[h].i;
    if now { JustExamined(run, n, h, b, s.pcs[h].i, SeenOf(t.pcs[h])); }
  }

  lemma FirstState(run: seq<State>)
    requires IsRun(run)
    ensures Init(run[0])
  {
  }

  lemma OneStep(run: seq<State>, n: nat)
    requires IsRun(run) && n + 1 < |run|
    ensures Next(run[n], run[n + 1])
  {
    hide Next;
  }

  lemma ScanIsIn(pc: Pc)
    ensures pc.ScanNext? || pc.Scan? <==> InScan(pc)
  {
  }

  /** b was examined already, or the step has finished its bucket. */
  lemma Before(s: State, t: State, h: Handle, b: int)
    requires Inv(s) && Inv(t) && Continues(s, t, h) && IsBuf(t, b) && (InScan(t.pcs[h]) ==> b < |t.at| && t.at[b] < t.pcs[h].i)
    ensures IsBuf(s, b) && Searching(s.pcs[h]) && (forall x :: x in SeenOf(s.pcs[h]) ==> x in SeenOf(t.pcs[h]))
    ensures InScan(s.pcs[h]) ==> b < |s.at|
    ensures InScan(t.pcs[h]) ==> InScan(s.pcs[h])
    ensures InScan(s.pcs[h]) && !(InScan(t.pcs[h]) && s.at[b] == s.pcs[h].i) ==> s.at[b] < s.pcs[h].i
    ensures InScan(t.pcs[h]) && s.at[b] == s.pcs[h].i ==> s.pcs[h].Scan? && s.at[b] < |s.lists| && Scanned(s, s.at[b], |s.lists[s.at[b]]|, SeenOf(t.pcs[h]))
  {
    hide Inv, SeenOf, Scanned;
    if InScan(s.pcs[h]) { OnSomeChain(s, h, b); }
  }

  /** bget panics only if every buffer was in use when the scan looked at it, under its bucket's lock. */
  lemma PanicMeansAllBusy(run: seq<State>, n: nat, h: Handle, b: int) returns (m: nat)
    requires IsRun(run) && n < |run| && h in run[n].pcs && run[n].pcs[h].Panicked? && IsBuf(run[n], b)
    ensures m <= n && (forall x :: m <= x <= n ==> run[x].global == Some(h))
    ensures IsBuf(run[m], b) && run[m].bufs[b].refcnt > 0
  {
    hide IsRun;
    m := ScanExamines(run, n, h, b);
  }

  /** So a handle cannot panic if some buffer is free whenever that handle has the global lock. */
  lemma NoPanicWithFreeBuffer(run: seq<State>, n: nat, h: Handle, b: int)
    requires IsRun(run) && n < |run| && h in run[n].pcs && IsBuf(run[n], b)
    requires forall m :: 0 <= m <= n && run[m].global == Some(h) && IsBuf(run[m], b) ==> run[m].bufs[b].refcnt == 0
    ensures !run[n].pcs[h].Panicked?
  {
    hide IsRun;
    if run[n].pcs[h].Panicked? { var m := PanicMeansAllBusy(run, n, h, b); }
  }

  /** The buffer that is taken is the least recently used of all: every other one was examined under its
      bucket's lock since h took the global lock, and was in use then or not used earlier. */
  lemma VictimAmongAll(run: seq<State>, n: nat, h: Handle, b: int) returns (m: nat)
    requires IsRun(run) && n < |run| && h in run[n].pcs && IsBuf(run[n], b)
    requires run[n].pcs[h].Unlinked? || run[n].pcs[h].Gap? || run[n].pcs[h].Relock? || run[n].pcs[h].Claim?
    ensures m <= n && (forall x :: m <= x <= n ==> run[x].global == Some(h)) && IsBuf(run[m], b)
    ensures var v := run[n].pcs[h].v;
      && IsBuf(run[n], v) && run[n].bufs[v].refcnt == 0
      && (run[m].bufs[b].refcnt > 0 || run[n].bufs[v].time <= run[m].bufs[b].time)
  {
    hide IsRun;
    m := ScanExamines(run, n, h, b);
    VictimIsLeastRecent(run, n, h);
  }

  // ---------------------------------------------------------------- misses

  /** bget leaves its bucket for the global lock only if no buffer of the bucket carries the block. */
  ghost predicate NotHere(s: State, key: Key) {
    && |s.head| > 0 && |s.lists| == |s.head|
    && forall q :: 0 <= q < |s.lists[Hash(s, key)]| ==> IsBuf(s, s.lists[Hash(s, key)][q]) && s.bufs[s.lists[Hash(s, key)][q]].key != key
  }

  lemma {:induction false} MissMeansAbsent(run: seq<State>, n: nat, h: Handle)
    requires IsRun(run) && n < |run| && h in run[n].pcs && run[n].pcs[h].Miss1?
    ensures NotHere(run[n], run[n].pcs[h].key)
    decreases n
  {
    hide Inv, Next, Init, NotHere;
    if n == 0 {
      NobodyInside(run[0], h);
    } else {
      RunInv(run, n - 1);
      var s, t := run[n - 1], run[n];
      if h in s.pcs && s.pcs[h].Miss1? { MissMeansAbsent(run, n - 1, h); }
      assert Next(s, t);
      MissStep(s, t, h);
    }
  }

  lemma NobodyInside(s: State, h: Handle)
    requires Init(s)
    ensures h in s.pcs ==> s.pcs[h].Idle?
  {
  }

  lemma MissStep(s: State, t: State, h: Handle)
    requires Inv(s) && Next(s, t) && h in t.pcs && t.pcs[h].Miss1? && (h in s.pcs && s.pcs[h].Miss1? ==> NotHere(s, s.pcs[h].key))
    ensures NotHere(t, t.pcs[h].key)
  {
    InvShape(s);
    hide Inv, Enabled, PcOk, Step, ListsOk, Moves, NotHere, Shape;
    if t == s.(ticks := s.ticks + 1) {
      TickMiss(s, t, t.pcs[h].key);
    } else {
      var g, a :| Moves(s, g, a, t);
      if g == h {
        OwnMiss(s, a, t, h);
      } else {
        SamePc(s, g, a, t, h);
        OtherMiss(s, g, a, t, h);
      }
    }
  }

  lemma OtherMiss(s: State, g: Handle, a: Action, t: State, h: Handle)
    requires Inv(s) && Moves(s, g, a, t) && g != h && h in s.pcs && s.pcs[h].Miss1? && NotHere(s, s.pcs[h].key)
    ensures NotHere(t, s.pcs[h].key)
  {
    hide Inv, Moves, BucketSame, NotHere;
    MissHolds(s, h);
    OthersLeave(s, g, a, t, h, Hash(s, s.pcs[h].key));
    HeadsSame(s, g, a, t);
    ListsCount(s, g, a, t);
    AbsentSame(s, t, s.pcs[h].key);
  }

  lemma TickMiss(s: State, t: State, key: Key)
    requires NotHere(s, key) && t == s.(ticks := s.ticks + 1)
    ensures NotHere(t, key)
  {
    assert BucketSame(s, t, Hash(s, key));
    AbsentSame(s, t, key);
  }

  lemma AbsentSame(s: State, t: State, key: Key)
    requires NotHere(s, key) && BucketSame(s, t, Hash(s, key)) && |t.head| == |s.head| && |t.lists| == |t.head|
    ensures NotHere(t, key)
  {
    var i := Hash(s, key);
    forall q | 0 <= q < |t.lists[i]| ensures IsBuf(t, t.lists[i][q]) && t.bufs[t.lists[i][q]].key != key { assert IsBuf(s, s.lists[i][q]); }
  }

  lemma ListsCount(s: State, g: Handle, a: Action, t: State)
    requires Inv(s) && Moves(s, g, a, t)
    ensures |t.lists| == |t.head|
  {
    hide Inv, Enabled, PcOk, Step, ListsOk;
    StepInv(s, g, a);
    InvShape(t);
  }

  lemma MissHolds(s: State, h: Handle)
    requires Inv(s) && h in s.pcs && s.pcs[h].Miss1?
    ensures |s.head| > 0 && Hash(s, s.pcs[h].key) < |s.block| && s.block[Hash(s, s.pcs[h].key)] == Some(h)
  {
    hide PlaceOk, UniqueOk, RefsOk, DataOk, ListsOk, PcsOk;
    MyLocks(s, h);
  }

  lemma OwnMiss(s: State, a: Action, t: State, h: Handle)
    requires Inv(s) && Moves(s, h, a, t) && h in t.pcs && t.pcs[h].Miss1?
    ensures NotHere(t, t.pcs[h].key)
  {
    hide LocksOk, PlaceOk, UniqueOk, RefsOk, DataOk, PcsOk, ListsOk, StepLookup, StepScan, StepMove, StepUse;
    if InLookup(s.pcs[h]) { LookupMiss(s, h, a); }
    else { NoMissElsewhere(s, h, a); }
  }

  lemma LookupMiss(s: State, h: Handle, a: Action)
    requires Shape(s) && ListsOk(s) && Enabled(s, h, a) && PcOk(s, s.pcs[h]) && InLookup(s.pcs[h]) && StepLookup(s, h, a).pcs[h].Miss1?
    ensures var t := StepLookup(s, h, a); NotHere(t, t.pcs[h].key)
  {
    hide ListsOk;
    if s.pcs[h].Walk1? { ChainFacts(s, Hash(s, s.pcs[h].key), s.pcs[h].j); }
  }

  lemma NoMissElsewhere(s: State, h: Handle, a: Action)
    requires Shape(s) && ListsOk(s) && Enabled(s, h, a) && PcOk(s, s.pcs[h]) && !InLookup(s.pcs[h])
    ensures !Step(s, h, a).pcs[h].Miss1?
  {
    hide ListsOk, Unlink;
    if s.pcs[h].Chosen? { BeforeOk(s, s.pcs[h].best.o, s.pcs[h].best.q); }
  }
}
