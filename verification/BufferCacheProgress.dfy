/** bread and brelse come to an end (xv6-lab-locks/bio.c:67-218): every step of a handle brings it nearer to
    the end of its call, and no step of another handle takes it back. What is left is waiting for locks. */
module BufferCacheProgress {
  import opened Common
  import opened BufferCache
  import opened BufferCacheProof
  import opened BufferCacheRuns
  import opened BufferCacheScan

  /** How far a handle is from the end of its call, compared from left to right. */
  datatype Left = Left(phase: nat, buckets: int, nodes: int)

  predicate Less(x: Left, y: Left) {
    || x.phase < y.phase
    || (x.phase == y.phase && 0 <= x.buckets < y.buckets)
    || (x.phase == y.phase && x.buckets == y.buckets && 0 <= x.nodes < y.nodes)
  }

  function Phase(pc: Pc): nat {
    match pc
    case Idle => 0
    case Panicked => 0
    case ReleaseCounted(_, _) => 1
    case Release(_, _) => 2
    case Held(_, _) => 3
    case PinCounted(_, _) => 4
    case Pin(_, _, _) => 5
    case Locked(_, _) => 6
    case SleepWait(_, _) => 7
    case Hit1(_, _) => 8
    case Hit2Done(_, _) => 9
    case Hit2Counted(_, _) => 10
    case Hit2(_, _) => 11
    case ClaimedFree(_, _) => 12
    case Claimed(_, _) => 13
    case Claim(_, _, _, _) => 14
    case Relock(_, _, _, _) => 15
    case Gap(_, _, _, _) => 16
    case Unlinked(_, _, _, _, _) => 17
    case Chosen(_, _, _, _) => 18
    case Scan(_, _, _, _, _, _, _, _) => 19
    case ScanNext(_, _, _, _, _) => 19
    case Walk2(_, _, _) => 20
    case WantAll(_) => 21
    case Miss1(_) => 22
    case Walk1(_, _, _) => 23
    case First(_) => 24
  }

  function ListLength(s: State, i: nat): nat { if i < |s.lists| then |s.lists[i]| else 0 }

  function LeftAt(s: State, pc: Pc): Left
    requires |s.head| > 0
  {
    match pc
    case Walk1(key, j, _) => Left(Phase(pc), 0, ListLength(s, Hash(s, key)) + 1 - j)
    case Walk2(key, j, _) => Left(Phase(pc), 0, ListLength(s, Hash(s, key)) + 1 - j)
    case ScanNext(_, i, _, _, _) => Left(Phase(pc), 2 * (|s.head| - i) + 1, 0)
    case Scan(_, i, _, _, _, _, j, _) => Left(Phase(pc), 2 * (|s.head| - i), ListLength(s, i) + 1 - j)
    case _ => Left(Phase(pc), 0, 0)
  }

  lemma LookupNearer(s: State, h: Handle)
    requires Shape(s) && ListsOk(s) && Enabled(s, h, Go) && PcOk(s, s.pcs[h]) && InLookup(s.pcs[h])
    ensures var t := StepLookup(s, h, Go); |t.head| == |s.head| && Less(LeftAt(t, t.pcs[h]), LeftAt(s, s.pcs[h]))
  {
    hide ListsOk;
    var pc := s.pcs[h];
    if pc.Walk1? || pc.Walk2? { ChainFacts(s, Hash(s, pc.key), pc.j); }
  }

  lemma ScanNearer(s: State, h: Handle)
    requires Shape(s) && ListsOk(s) && h in s.pcs && PcOk(s, s.pcs[h]) && InScan(s.pcs[h])
    ensures var t := StepScan(s, h); |t.head| == |s.head| && Less(LeftAt(t, t.pcs[h]), LeftAt(s, s.pcs[h]))
  {
    hide ListsOk;
    var pc := s.pcs[h];
    if pc.Scan? { PtrNext(s, pc.i, pc.j); }
  }

  lemma MoveNearer(s: State, h: Handle)
    requires Shape(s) && ListsOk(s) && h in s.pcs && PcOk(s, s.pcs[h]) && InMove(s.pcs[h])
    ensures Phase(StepMove(s, h).pcs[h]) < Phase(s.pcs[h])
  {
    hide ListsOk, Unlink;
    if s.pcs[h].Chosen? { BeforeOk(s, s.pcs[h].best.o, s.pcs[h].best.q); }
  }

  lemma UseNearer(s: State, h: Handle, a: Action)
    requires Shape(s) && Enabled(s, h, a) && PcOk(s, s.pcs[h]) && (a.Go? || a.DoRelease?) && !InLookup(s.pcs[h]) && !InScan(s.pcs[h]) && !InMove(s.pcs[h])
    ensures Phase(StepUse(s, h, a).pcs[h]) < Phase(s.pcs[h])
  {
  }

  lemma PhaseFirst(s: State, pc: Pc, t: State, pc': Pc)
    requires |s.head| > 0 && |t.head| > 0 && Phase(pc') < Phase(pc)
    ensures Less(LeftAt(t, pc'), LeftAt(s, pc))
  {
  }

  /** Every step of a handle, once it is called, brings it nearer to Held, and then from brelse to the end. */
  lemma StepNearer(s: State, h: Handle, a: Action, t: State)
    requires Moves(s, h, a, t) && (a.Go? || a.DoRelease?)
    ensures |t.head| == |s.head| > 0 && h in t.pcs && Less(LeftAt(t, t.pcs[h]), LeftAt(s, s.pcs[h]))
  {
    GoOrRelease(s, h, a);
    hide ListsOk, Enabled, PcOk, StepScan, StepLookup, StepMove, StepUse, Less, LeftAt;
    if InLookup(s.pcs[h]) { LookupNearer(s, h); LookupTouches(s, h, a); }
    else if InScan(s.pcs[h]) { ScanNearer(s, h); ScanTouches(s, h); }
    else if InMove(s.pcs[h]) { MoveNearer(s, h); MovePcs(s, h); PhaseFirst(s, s.pcs[h], t, t.pcs[h]); }
    else { UseNearer(s, h, a); UseTouches(s, h, a); PhaseFirst(s, s.pcs[h], t, t.pcs[h]); }
  }

  lemma GoOrRelease(s: State, h: Handle, a: Action)
    requires Shape(s) && Enabled(s, h, a)
    ensures a.DoRelease? ==> s.pcs[h].Held?
  {
  }

  /** Nobody else takes a handle back. */
  lemma OthersDoNotDelay(s: State, g: Handle, a: Action, t: State, h: Handle)
    requires Inv(s) && Moves(s, g, a, t) && g != h && h in t.pcs
    ensures |t.head| == |s.head| > 0 && h in s.pcs && LeftAt(t, t.pcs[h]) == LeftAt(s, s.pcs[h])
  {
    InvShape(s);
    SamePc(s, g, a, t, h);
    HeadsSame(s, g, a, t);
    if s.pcs[h].Walk1? {
      WalkHolds(s, h);
      OthersLeave(s, g, a, t, h, Hash(s, s.pcs[h].key));
    } else if s.pcs[h].Walk2? || s.pcs[h].Scan? {
      OthersMoveNothing(s, g, a, t, h);
    }
    hide Inv, Moves;
  }

  lemma WalkHolds(s: State, h: Handle)
    requires Inv(s) && h in s.pcs && s.pcs[h].Walk1?
    ensures |s.head| > 0 && Hash(s, s.pcs[h].key) < |s.block| && s.block[Hash(s, s.pcs[h].key)] == Some(h)
  {
    hide PlaceOk, UniqueOk, RefsOk, DataOk, ListsOk, PcsOk;
    MyLocks(s, h);
  }
}
