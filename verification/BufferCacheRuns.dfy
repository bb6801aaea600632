/** What holds in every run of the buffer cache: any number of handles, any interleaving. */
module BufferCacheRuns {
  import opened Common
  import opened BufferCache
  import opened BufferCacheProof

  /** binit: all buffers in the list of bucket 0 with identity (0, 0), no locks, nobody inside. */
  ghost predicate Init(s: State) {
    && Shape(s) && s.truth == s.disk && s.stray == {} && s.global.None?
    && (forall i :: 0 <= i < |s.block| ==> s.block[i].None?)
    && (forall b :: 0 <= b < |s.sleep| ==> s.sleep[b].None?)
    && (forall h :: h in s.pcs ==> s.pcs[h] == Idle)
    && s.lists[0] == seq(|s.bufs|, j requires 0 <= j < |s.bufs| => |s.bufs| - 1 - j)
    && (forall i :: 0 < i < |s.lists| ==> s.lists[i] == [])
    && (forall i :: 0 <= i < |s.head| ==> s.head[i] == ElemAt(s.lists[i], 0))
    && (forall b :: IsBuf(s, b) ==> s.at[b] == 0 && s.pins[b] == 0)
    && (forall b :: IsBuf(s, b) ==>
          && s.bufs[b].key == Key(0, 0) && s.bufs[b].refcnt == 0 && !s.bufs[b].valid && s.bufs[b].time == 0
          && s.bufs[b].next == b - 1)
  }

  /** One transition: a handle takes a step, or the clock ticks. */
  ghost predicate Next(s: State, t: State) {
    || (exists h, a :: Moves(s, h, a, t))
    || t == s.(ticks := s.ticks + 1)
  }

  /** The first line says where Step is defined; EnabledMoves shows that it filters nothing out. */
  ghost predicate Moves(s: State, h: Handle, a: Action, t: State) {
    && Shape(s) && ListsOk(s) && h in s.pcs && PcOk(s, s.pcs[h])
    && Enabled(s, h, a) && t == Step(s, h, a)
  }

  ghost predicate IsRun(run: seq<State>) {
    |run| > 0 && Init(run[0]) && forall i :: 0 <= i < |run| - 1 ==> Next(run[i], run[i + 1])
  }

  lemma InitInv(s: State)
    requires Init(s)
    ensures Inv(s)
  {
    var l := s.lists[0];
    forall i | 0 <= i < |s.lists| ensures ChainOk(s, i) {
      if i == 0 {
        forall j | 0 <= j < |l| ensures IsBuf(s, l[j]) && s.bufs[l[j]].next == ElemAt(l, j + 1) {}
      }
    }
    forall b | IsBuf(s, b) ensures b in l { assert l[|s.bufs| - 1 - b] == b; }
    assert ListsOk(s);
    assert LocksOk(s) && PlaceOk(s) && UniqueOk(s) && DataOk(s) && PcsOk(s);
    forall b | IsBuf(s, b) ensures |RefSet(s.pcs, b)| == 0 { assert RefSet(s.pcs, b) == {}; }
  }

  lemma TickInv(s: State)
    requires Inv(s)
    ensures Inv(s.(ticks := s.ticks + 1))
  {
    var t := s.(ticks := s.ticks + 1);
    hide LocksOk, RefsOk, PcOk;
    assert LocksOk(t) && RefsOk(t) by { TickHolders(s, t); }
    forall g | g in t.pcs ensures PcOk(t, t.pcs[g]) { PcSame(s, t, s.pcs[g]); }
    LockStepRest(s, t, 0);
  }

  lemma TickHolders(s: State, t: State)
    requires Shape(s) && LocksOk(s) && RefsOk(s) && t == s.(ticks := t.ticks)
    ensures Shape(t) && LocksOk(t) && RefsOk(t)
  {
    hide Buckets, IsGlobal, SleepOf;
  }

  /** The invariant holds in every state of every run. */
  lemma {:induction false} RunInv(run: seq<State>, i: nat)
    requires IsRun(run) && i < |run|
    ensures Inv(run[i])
    decreases i
  {
    hide Inv, Init;
    if i == 0 {
      InitInv(run[0]);
    } else {
      RunInv(run, i - 1);
      NextInv(run[i - 1], run[i]);
    }
  }

  /** Every enabled step of every state of a run leads on. */
  lemma EnabledMoves(run: seq<State>, i: nat, h: Handle, a: Action)
    requires IsRun(run) && i < |run| && Shape(run[i]) && Enabled(run[i], h, a)
    ensures ListsOk(run[i]) && PcOk(run[i], run[i].pcs[h]) && Next(run[i], Step(run[i], h, a))
  {
    RunInv(run, i);
    hide LocksOk, PlaceOk, UniqueOk, RefsOk, DataOk, ListsOk, PcOk, Step, Enabled;
    PcsAt(run[i], h);
    assert Moves(run[i], h, a, Step(run[i], h, a));
  }

  lemma NextInv(s: State, t: State)
    requires Inv(s) && Next(s, t)
    ensures Inv(t)
  {
    hide Inv, Enabled, PcOk, Step, ListsOk;
    if t == s.(ticks := s.ticks + 1) {
      TickInv(s);
    } else {
      var h, a :| Moves(s, h, a, t);
      StepInv(s, h, a);
    }
  }

  // ---------------------------------------------------------------- identities

  /** No block of a real device is ever cached twice, and every buffer outside the hand-over is on
      the chain of its block's bucket and on no other. */
  lemma OneBufferPerBlock(run: seq<State>, i: nat)
    requires IsRun(run) && i < |run|
    ensures var s := run[i];
      && Shape(s)
      && (forall b, c :: IsBuf(s, b) && IsBuf(s, c) && b != c && s.bufs[b].key.dev != 0 ==> s.bufs[b].key != s.bufs[c].key)
      && (forall b, k :: IsBuf(s, b) && 0 <= k < |s.lists| && s.bufs[b].key.dev != 0 && !InHands(s, b) ==>
            (b in s.lists[k] <==> k == s.bufs[b].key.blk % |s.head|))
      && (forall k :: 0 <= k < |s.lists| ==> ChainOk(s, k))
  {
    hide LocksOk, RefsOk, DataOk, PcsOk, InHands;
    RunInv(run, i);
    var s := run[i];
    forall b, k | IsBuf(s, b) && 0 <= k < |s.lists| && s.bufs[b].key.dev != 0 && !InHands(s, b) && b in s.lists[k]
      ensures k == s.bufs[b].key.blk % |s.head|
    {
      var j :| 0 <= j < |s.lists[k]| && s.lists[k][j] == b;
    }
  }

  /** A buffer that somebody refers to keeps its identity over a step. */
  lemma StableIdentity(run: seq<State>, i: nat, b: int)
    requires IsRun(run) && i + 1 < |run| && IsBuf(run[i], b) && run[i].bufs[b].refcnt > 0
    ensures IsBuf(run[i + 1], b) && run[i + 1].bufs[b].key == run[i].bufs[b].key
  {
    hide LocksOk, RefsOk, DataOk, UniqueOk, ListsOk;
    RunInv(run, i);
    var s, t := run[i], run[i + 1];
    assert Next(s, t);
    if t != s.(ticks := s.ticks + 1) {
      var h, a :| Moves(s, h, a, t);
      KeyKept(s, h, a, b);
    }
  }

  lemma KeyKept(s: State, h: Handle, a: Action, b: int)
    requires Inv(s) && Enabled(s, h, a) && PcOk(s, s.pcs[h]) && IsBuf(s, b) && s.bufs[b].refcnt > 0
    ensures IsBuf(Step(s, h, a), b) && Step(s, h, a).bufs[b].key == s.bufs[b].key
  {
    hide LocksOk, RefsOk, DataOk, UniqueOk, ListsOk, PlaceOk, PcsOk, PcOk, StepLookup, StepScan, StepMove, StepUse;
    if InLookup(s.pcs[h]) { KeyKeptLookup(s, h, a, b); }
    else if InScan(s.pcs[h]) { KeyKeptScan(s, h, b); }
    else if InMove(s.pcs[h]) { KeyKeptMove(s, h, b); }
    else { KeyKeptUse(s, h, a, b); }
  }

  lemma KeyKeptLookup(s: State, h: Handle, a: Action, b: int)
    requires Shape(s) && Enabled(s, h, a) && PcOk(s, s.pcs[h]) && InLookup(s.pcs[h]) && IsBuf(s, b)
    ensures IsBuf(StepLookup(s, h, a), b) && StepLookup(s, h, a).bufs[b].key == s.bufs[b].key
  {
  }

  lemma KeyKeptScan(s: State, h: Handle, b: int)
    requires Shape(s) && h in s.pcs && PcOk(s, s.pcs[h]) && InScan(s.pcs[h]) && IsBuf(s, b)
    ensures IsBuf(StepScan(s, h), b) && StepScan(s, h).bufs[b].key == s.bufs[b].key
  {
  }

  lemma KeyKeptMove(s: State, h: Handle, b: int)
    requires Shape(s) && h in s.pcs && PcOk(s, s.pcs[h]) && InMove(s.pcs[h]) && ListsOk(s) && IsBuf(s, b)
    requires s.bufs[b].refcnt > 0
    ensures IsBuf(StepMove(s, h), b) && StepMove(s, h).bufs[b].key == s.bufs[b].key
  {
    hide ListsOk, Unlink;
    match s.pcs[h]
    case Chosen(_, best, _, _) =>
      BeforeOk(s, best.o, best.q);
      UnlinkBufs(s, best.o, best.q, best.before, best.v);
    case _ =>
  }

  lemma KeyKeptUse(s: State, h: Handle, a: Action, b: int)
    requires Shape(s) && Enabled(s, h, a) && PcOk(s, s.pcs[h]) && IsBuf(s, b)
    requires !InLookup(s.pcs[h]) && !InScan(s.pcs[h]) && !InMove(s.pcs[h])
    ensures IsBuf(StepUse(s, h, a), b) && StepUse(s, h, a).bufs[b].key == s.bufs[b].key
  {
  }

  // ---------------------------------------------------------------- contents

  /** bread returns a locked valid buffer of the block that was asked for; unless the block is stray it
      shows the last contents written by anybody, whichever handle read it from disk. */
  lemma ReadsLastWrite(run: seq<State>, i: nat, h: Handle)
    requires IsRun(run) && i < |run| && h in run[i].pcs && run[i].pcs[h].Held?
    ensures var s, key, b := run[i], run[i].pcs[h].key, run[i].pcs[h].b;
      && Shape(s) && IsBuf(s, b) && s.bufs[b].key == key && s.bufs[b].valid && s.sleep[b] == Some(h)
      && (key !in s.stray ==> s.bufs[b].data == Get(s.truth, key))
  {
    hide RefsOk, UniqueOk, ListsOk, PlaceOk;
    RunInv(run, i);
    assert PcOk(run[i], run[i].pcs[h]);
  }

  /** A block that no referenced buffer holds is up to date on disk, unless it is stray. */
  lemma DiskUpToDate(run: seq<State>, i: nat, k: Key)
    requires IsRun(run) && i < |run| && k.dev != 0 && k !in run[i].stray
    requires forall b :: IsBuf(run[i], b) && run[i].bufs[b].key == k ==> run[i].bufs[b].refcnt == 0
    ensures Get(run[i].disk, k) == Get(run[i].truth, k)
  {
    hide LocksOk, RefsOk, UniqueOk, ListsOk, PlaceOk, PcsOk;
    RunInv(run, i);
  }

  /** h drops the last reference to a buffer that the disk is behind of. */
  ghost predicate DropsDirty(s: State, h: Handle) {
    && h in s.pcs && s.pcs[h].Release? && IsBuf(s, s.pcs[h].b)
    && s.bufs[s.pcs[h].b].refcnt == 1 && s.bufs[s.pcs[h].b].data != Get(s.disk, s.pcs[h].key)
  }

  /** h has dropped its reference. */
  ghost predicate Released(t: State, h: Handle) { h in t.pcs && t.pcs[h].ReleaseCounted? }

  /** Only such a release makes a block stray, and it is that buffer's block. */
  lemma StrayStep(s: State, h: Handle, a: Action, t: State, k: Key)
    requires Moves(s, h, a, t) && k in t.stray && k !in s.stray
    ensures DropsDirty(s, h) && k == s.pcs[h].key && Released(t, h)
  {
    hide ListsOk, Enabled, PcOk, StepScan, StepLookup, StepMove, StepUse, DropsDirty, Released;
    if InLookup(s.pcs[h]) { LookupStray(s, h, a); }
    else if InScan(s.pcs[h]) { ScanStray(s, h); }
    else if InMove(s.pcs[h]) { MoveStray(s, h); }
    else { UseStray(s, h, a, k); }
  }

  lemma UseStray(s: State, h: Handle, a: Action, k: Key)
    requires Shape(s) && Enabled(s, h, a) && PcOk(s, s.pcs[h]) && !InLookup(s.pcs[h]) && !InScan(s.pcs[h]) && !InMove(s.pcs[h])
    requires k in StepUse(s, h, a).stray && k !in s.stray
    ensures DropsDirty(s, h) && k == s.pcs[h].key && Released(StepUse(s, h, a), h)
  {
  }

  lemma LookupStray(s: State, h: Handle, a: Action)
    requires Shape(s) && Enabled(s, h, a) && PcOk(s, s.pcs[h]) && InLookup(s.pcs[h])
    ensures StepLookup(s, h, a).stray == s.stray
  {
  }

  lemma ScanStray(s: State, h: Handle)
    requires Shape(s) && h in s.pcs && PcOk(s, s.pcs[h]) && InScan(s.pcs[h])
    ensures StepScan(s, h).stray == s.stray
  {
  }

  lemma MoveStray(s: State, h: Handle)
    requires Shape(s) && h in s.pcs && PcOk(s, s.pcs[h]) && InMove(s.pcs[h]) && ListsOk(s)
    ensures StepMove(s, h).stray == s.stray
  {
    hide ListsOk, Unlink;
    match s.pcs[h]
    case Chosen(_, best, _, _) =>
      BeforeOk(s, best.o, best.q);
      UnlinkBufs(s, best.o, best.q, best.before, best.v);
    case _ =>
  }

  /** If every last release so far found the disk up to date, no block is stray. */
  lemma {:induction false} CleanRunsAreSafe(run: seq<State>, i: nat)
    requires IsRun(run) && i < |run|
    requires forall j, h :: 0 <= j < i && DropsDirty(run[j], h) ==> !Released(run[j + 1], h)
    ensures run[i].stray == {}
    decreases i
  {
    hide ListsOk, Enabled, PcOk, Step, Shape, DropsDirty, Released;
    if i == 0 {
      InitStray(run[0]);
    } else {
      CleanRunsAreSafe(run, i - 1);
      var s, t := run[i - 1], run[i];
      assert Next(s, t);
      if t != s.(ticks := s.ticks + 1) {
        var h, a :| Moves(s, h, a, t);
        forall k | k in t.stray ensures false { StrayStep(s, h, a, t, k); }
      }
    }
  }

  lemma InitStray(s: State)
    requires Init(s)
    ensures s.stray == {}
  {
  }

  /** What a stray block stands to lose: when its buffer is claimed for another block, the contents that
      were only in the buffer are in no valid buffer and not on disk. */
  lemma ClaimLosesStray(s: State, h: Handle)
    requires Inv(s) && h in s.pcs && s.pcs[h].Claim? && PcOk(s, s.pcs[h])
    requires var x := s.bufs[s.pcs[h].v]; x.valid && x.key.dev != 0 && x.data != Get(s.disk, x.key)
    ensures var x, t := s.bufs[s.pcs[h].v], StepMove(s, h); !Cached(t, x.key) && Get(t.disk, x.key) != x.data && x.key in s.stray
  {
    hide LocksOk, RefsOk, ListsOk, PlaceOk, PcsOk;
    var v := s.pcs[h].v;
    var x, t := s.bufs[v], StepMove(s, h);
    forall b | IsBuf(t, b) && t.bufs[b].valid ensures t.bufs[b].key != x.key { assert b != v && t.bufs[b] == s.bufs[b]; }
  }

  // ---------------------------------------------------------------- locks

  /** Outside bget, brelse, bpin and bunpin no spinlock is held. */
  lemma ExitsHoldNothing(run: seq<State>, i: nat, h: Handle)
    requires IsRun(run) && i < |run| && h in run[i].pcs
    requires run[i].pcs[h].Idle? || run[i].pcs[h].SleepWait? || run[i].pcs[h].Locked? || run[i].pcs[h].Held?
    ensures run[i].global != Some(h) && forall k :: 0 <= k < |run[i].block| ==> run[i].block[k] != Some(h)
  {
    hide RefsOk, UniqueOk, ListsOk, PlaceOk, DataOk, PcsOk;
    RunInv(run, i);
  }

  /** Whoever holds two bucket locks holds the global lock. */
  lemma TwoBucketsNeedGlobal(run: seq<State>, i: nat, h: Handle, k: nat, l: nat)
    requires IsRun(run) && i < |run| && h in run[i].pcs && k < |run[i].block| && l < |run[i].block| && k != l
    requires run[i].block[k] == Some(h) && run[i].block[l] == Some(h)
    ensures run[i].global == Some(h)
  {
    hide RefsOk, UniqueOk, ListsOk, PlaceOk, DataOk, PcsOk;
    RunInv(run, i);
  }

  datatype Wish = Nothing | Bucket(i: nat) | Everything | Sleep(b: int)

  /** The lock a handle is about to acquire: a spinlock, or the sleep-lock of a buffer. */
  function WishOf(s: State, pc: Pc): Wish
    requires |s.head| > 0
  {
    match pc
    case First(key) => Bucket(Hash(s, key))
    case WantAll(_) => Everything
    case Hit2(key, _) => Bucket(Hash(s, key))
    case ScanNext(_, i, _, _, _) => if i < |s.head| then Bucket(i) else Nothing
    case Gap(key, _, _, _) => Bucket(Hash(s, key))
    case Release(key, _) => Bucket(Hash(s, key))
    case Pin(key, _, _) => Bucket(Hash(s, key))
    case SleepWait(_, b) => Sleep(b)
    case _ => Nothing
  }

  /** h waits for a lock that g holds. */
  ghost predicate Waits(s: State, h: Handle, g: Handle)
    requires Shape(s)
  {
    h in s.pcs && g in s.pcs &&
    match WishOf(s, s.pcs[h])
    case Nothing => false
    case Bucket(i) => i < |s.block| && s.block[i] == Some(g)
    case Everything => s.global == Some(g)
    case Sleep(b) => 0 <= b < |s.sleep| && s.sleep[b] == Some(g)
  }

  /** How far a handle is from being blocked: waits go strictly downwards. */
  function Rank(s: State, pc: Pc): nat
    requires |s.head| > 0
  {
    match WishOf(s, pc)
    case Nothing => 0
    case Everything => 3
    case Sleep(_) => 4
    case Bucket(_) => if IsGlobal(pc) then 1 else 2
  }

  lemma WaitsGoDown(s: State, h: Handle, g: Handle)
    requires Inv(s) && Waits(s, h, g)
    ensures Rank(s, s.pcs[g]) < Rank(s, s.pcs[h])
  {
    hide RefsOk, UniqueOk, ListsOk, PlaceOk, DataOk, PcsOk;
    assert PcOk(s, s.pcs[h]) && PcOk(s, s.pcs[g]) by { assert PcsOk(s); PcsAt(s, h); PcsAt(s, g); }
  }

  lemma PcsAt(s: State, h: Handle)
    requires Shape(s) && PcsOk(s) && h in s.pcs
    ensures PcOk(s, s.pcs[h])
  {
  }

  /** No reachable state has a cyclic wait. */
  lemma {:induction false} NoCyclicWait(run: seq<State>, i: nat, chain: seq<Handle>)
    requires IsRun(run) && i < |run| && |chain| >= 2 && Shape(run[i])
    requires forall k :: 0 <= k < |chain| - 1 ==> Waits(run[i], chain[k], chain[k + 1])
    ensures chain[0] != chain[|chain| - 1]
  {
    RunInv(run, i);
    ChainDown(run[i], chain);
  }

  lemma {:induction false} ChainDown(s: State, chain: seq<Handle>)
    requires Inv(s) && |chain| >= 2
    requires forall k :: 0 <= k < |chain| - 1 ==> Waits(s, chain[k], chain[k + 1])
    ensures chain[0] in s.pcs && chain[|chain| - 1] in s.pcs
    ensures Rank(s, s.pcs[chain[|chain| - 1]]) < Rank(s, s.pcs[chain[0]])
    decreases |chain|
  {
    hide Inv, Rank;
    InvShape(s);
    WaitsGoDown(s, chain[0], chain[1]);
    if |chain| > 2 {
      var rest := chain[1..];
      forall k | 0 <= k < |rest| - 1 ensures Waits(s, rest[k], rest[k + 1]) {
        assert rest[k] == chain[k + 1] && rest[k + 1] == chain[k + 2];
      }
      ChainDown(s, rest);
    }
  }

  lemma InvShape(s: State)
    requires Inv(s)
    ensures Shape(s)
  {
  }

  // ---------------------------------------------------------------- the victim

  /** The buffer that a claim re-labels is free, and its time is no later than that of any buffer the
      scan saw free while it held that buffer's bucket. */
  lemma VictimIsLeastRecent(run: seq<State>, i: nat, h: Handle)
    requires IsRun(run) && i < |run| && h in run[i].pcs
    requires run[i].pcs[h].Unlinked? || run[i].pcs[h].Gap? || run[i].pcs[h].Relock? || run[i].pcs[h].Claim?
    ensures var s, pc := run[i], run[i].pcs[h];
      IsBuf(s, pc.v) && s.bufs[pc.v].refcnt == 0 && forall x :: x in pc.seen ==> s.bufs[pc.v].time <= x
  {
    hide LocksOk, RefsOk, UniqueOk, ListsOk, PlaceOk, DataOk;
    RunInv(run, i);
    assert PcOk(run[i], run[i].pcs[h]);
  }

  /** Already during the scan, the candidate stays free: its bucket stays locked. */
  lemma CandidateStaysFree(run: seq<State>, i: nat, h: Handle)
    requires IsRun(run) && i < |run| && h in run[i].pcs
    requires (run[i].pcs[h].ScanNext? || run[i].pcs[h].Scan? || run[i].pcs[h].Chosen?) && run[i].pcs[h].best.Best?
    ensures var s, best := run[i], run[i].pcs[h].best;
      && Shape(s) && best.o < |s.block| && s.block[best.o] == Some(h) && IsBuf(s, best.v) && s.at[best.v] == best.o
      && s.bufs[best.v].refcnt == 0 && forall x :: x in run[i].pcs[h].seen ==> s.bufs[best.v].time <= x
  {
    hide RefsOk, UniqueOk, PlaceOk, DataOk;
    RunInv(run, i);
    assert PcOk(run[i], run[i].pcs[h]);
  }
}
