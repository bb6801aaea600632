/** Callers that write back what they change (xv6-lab-locks/bio.c:177-218): nothing is ever lost, and
    every bread returns the last contents set, in any interleaving. */
module BufferCacheWrites {
  import opened Common
  import opened BufferCache
  import opened BufferCacheProof
  import opened BufferCacheRuns
  import opened BufferCacheScan

  // ---------------------------------------------------------------- what one step does to contents

  /** Contents, validity and blocks of the buffers other than b are the same. */
  ghost predicate DataBut(s: State, t: State, b: int) {
    && |t.bufs| == |s.bufs| && |t.sleep| == |s.sleep|
    && forall c :: IsBuf(s, c) && c != b ==> t.bufs[c].key == s.bufs[c].key && t.bufs[c].valid == s.bufs[c].valid && t.bufs[c].data == s.bufs[c].data
  }

  /** A step outside the use of a buffer: contents stay where they are, except that a claimed buffer
      becomes invalid. */
  ghost predicate Harmless(s: State, t: State, h: Handle) {
    && h in s.pcs && DataBut(s, t, if s.pcs[h].Claim? then s.pcs[h].v else -1) && t.disk == s.disk && t.truth == s.truth && t.sleep == s.sleep
    && h in t.pcs && t.pcs == s.pcs[h := t.pcs[h]] && !t.pcs[h].Release?
    && (s.pcs[h].Claim? ==> IsBuf(s, s.pcs[h].v) && s.bufs[s.pcs[h].v].refcnt == 0 && !t.bufs[s.pcs[h].v].valid)
  }

  lemma LookupHarmless(s: State, h: Handle, a: Action)
    requires Shape(s) && Enabled(s, h, a) && PcOk(s, s.pcs[h]) && InLookup(s.pcs[h])
    ensures Harmless(s, StepLookup(s, h, a), h) && !a.SetData? && !a.WriteBack? && !a.DoRelease?
  {
  }

  lemma ScanHarmless(s: State, h: Handle)
    requires Shape(s) && h in s.pcs && PcOk(s, s.pcs[h]) && InScan(s.pcs[h])
    ensures Harmless(s, StepScan(s, h), h)
  {
  }

  lemma MoveHarmless(s: State, h: Handle)
    requires Shape(s) && h in s.pcs && PcOk(s, s.pcs[h]) && InMove(s.pcs[h]) && ListsOk(s)
    ensures Harmless(s, StepMove(s, h), h)
  {
    hide ListsOk, Unlink;
    var pc := s.pcs[h];
    if pc.Chosen? {
      BeforeOk(s, pc.best.o, pc.best.q);
      UnlinkBufs(s, pc.best.o, pc.best.q, pc.best.before, pc.best.v);
    }
  }

  /** The same for the steps of a caller that neither change, write nor release the buffer. */
  ghost predicate Ordinary(s: State, h: Handle, a: Action) {
    h in s.pcs && !(s.pcs[h].Held? && (a.SetData? || a.WriteBack? || a.DoRelease?)) && !s.pcs[h].SleepWait? && !s.pcs[h].Locked?
  }

  lemma UseHarmless(s: State, h: Handle, a: Action)
    requires Shape(s) && Enabled(s, h, a) && PcOk(s, s.pcs[h]) && !InLookup(s.pcs[h]) && !InScan(s.pcs[h]) && !InMove(s.pcs[h])
    requires Ordinary(s, h, a)
    ensures Harmless(s, StepUse(s, h, a), h) && !a.SetData? && !a.WriteBack? && !a.DoRelease?
  {
  }

  lemma StepHarmless(s: State, h: Handle, a: Action, t: State)
    requires Moves(s, h, a, t) && Ordinary(s, h, a)
    ensures Harmless(s, t, h) && !a.SetData? && !a.WriteBack? && !a.DoRelease?
  {
    GoOnly(s, h, a);
    hide ListsOk, Enabled, PcOk, StepScan, StepLookup, StepMove, StepUse, Harmless, Ordinary;
    if InLookup(s.pcs[h]) { LookupHarmless(s, h, a); }
    else if InScan(s.pcs[h]) { ScanHarmless(s, h); }
    else if InMove(s.pcs[h]) { MoveHarmless(s, h); }
    else { UseHarmless(s, h, a); }
  }

  lemma GoOnly(s: State, h: Handle, a: Action)
    requires Shape(s) && Enabled(s, h, a)
    ensures InScan(s.pcs[h]) || InMove(s.pcs[h]) ==> a.Go?
  {
  }

  // ---------------------------------------------------------------- the clock of the least recent use

  /** A buffer's time changes only when its last reference is dropped, and is the clock at that moment. */
  lemma TimeOfLastUse(s: State, t: State, b: int)
    requires Inv(s) && Next(s, t) && IsBuf(s, b)
    ensures IsBuf(t, b)
    ensures t.bufs[b].time == if s.bufs[b].refcnt > 0 && t.bufs[b].refcnt == 0 then s.ticks else s.bufs[b].time
  {
    InvShape(s);
    if t != s.(ticks := s.ticks + 1) {
      var h, a :| Moves(s, h, a, t);
      hide Inv, ListsOk, Enabled, PcOk, StepScan, StepLookup, StepMove, StepUse;
      if InLookup(s.pcs[h]) { LookupTime(s, h, a, b); }
      else if InScan(s.pcs[h]) { ScanTouches(s, h); }
      else if InMove(s.pcs[h]) { MoveTime(s, h, b); }
      else { UseTime(s, h, a, b); }
    }
  }

  lemma LookupTime(s: State, h: Handle, a: Action, b: int)
    requires Shape(s) && Enabled(s, h, a) && PcOk(s, s.pcs[h]) && InLookup(s.pcs[h]) && IsBuf(s, b)
    ensures var t := StepLookup(s, h, a); IsBuf(t, b) && t.bufs[b].time == s.bufs[b].time && t.bufs[b].refcnt >= s.bufs[b].refcnt
  {
  }

  lemma MoveTime(s: State, h: Handle, b: int)
    requires Shape(s) && h in s.pcs && PcOk(s, s.pcs[h]) && InMove(s.pcs[h]) && ListsOk(s) && IsBuf(s, b)
    ensures var t := StepMove(s, h); IsBuf(t, b) && t.bufs[b].time == s.bufs[b].time && t.bufs[b].refcnt >= s.bufs[b].refcnt
  {
    hide ListsOk, Unlink;
    var pc := s.pcs[h];
    if pc.Chosen? {
      BeforeOk(s, pc.best.o, pc.best.q);
      UnlinkBufs(s, pc.best.o, pc.best.q, pc.best.before, pc.best.v);
    }
  }

  lemma UseTime(s: State, h: Handle, a: Action, b: int)
    requires Inv(s) && Enabled(s, h, a) && PcOk(s, s.pcs[h]) && !InLookup(s.pcs[h]) && !InScan(s.pcs[h]) && !InMove(s.pcs[h]) && IsBuf(s, b)
    ensures var t := StepUse(s, h, a);
      IsBuf(t, b) && t.bufs[b].time == if s.bufs[b].refcnt > 0 && t.bufs[b].refcnt == 0 then s.ticks else s.bufs[b].time
  {
    hide LocksOk, ListsOk, PlaceOk, UniqueOk, DataOk, PcsOk;
    if s.pcs[h].Pin? { PinnedTwice(s, h); }
    hide RefsOk;
  }

  /** Besides its own reference, an unpinning caller has the pin. */
  lemma PinnedTwice(s: State, h: Handle)
    requires Inv(s) && h in s.pcs && PcOk(s, s.pcs[h]) && s.pcs[h].Pin? && IsBuf(s, s.pcs[h].b)
    ensures !s.pcs[h].up ==> s.bufs[s.pcs[h].b].refcnt >= 2
  {
    hide LocksOk, ListsOk, PlaceOk, UniqueOk, DataOk;
    RefCounts(s, h);
  }

  // ---------------------------------------------------------------- runs with the callers' actions

  datatype Event = Tick | Act(h: Handle, a: Action)

  ghost predicate Follows(s: State, e: Event, t: State) {
    match e
    case Tick => t == s.(ticks := s.ticks + 1)
    case Act(h, a) => Moves(s, h, a, t)
  }

  ghost predicate IsTrace(run: seq<State>, acts: seq<Event>) {
    |run| == |acts| + 1 && Init(run[0]) && forall i :: 0 <= i < |acts| ==> Follows(run[i], acts[i], run[i + 1])
  }

  /** Traces are the runs, with what was done in each step. */
  lemma TraceIsRun(run: seq<State>, acts: seq<Event>)
    requires IsTrace(run, acts)
    ensures IsRun(run)
  {
    hide Moves, Init;
    forall i | 0 <= i < |run| - 1 ensures Next(run[i], run[i + 1]) {
      assert Follows(run[i], acts[i], run[i + 1]);
      if acts[i].Act? { assert Moves(run[i], acts[i].h, acts[i].a, run[i + 1]); }
    }
  }

  lemma {:induction false} RunIsTrace(run: seq<State>) returns (acts: seq<Event>)
    requires IsRun(run)
    ensures IsTrace(run, acts)
    decreases |run|
  {
    hide Moves, Init;
    if |run| == 1 {
      acts := [];
    } else {
      var n := |run| - 2;
      var before := RunIsTrace(run[..n + 1]);
      assert Next(run[n], run[n + 1]);
      var e: Event;
      if run[n + 1] == run[n].(ticks := run[n].ticks + 1) {
        e := Tick;
      } else {
        var h, a :| Moves(run[n], h, a, run[n + 1]);
        e := Act(h, a);
      }
      acts := before + [e];
      assert Follows(run[n], acts[n], run[n + 1]);
      forall i | 0 <= i < |acts| ensures Follows(run[i], acts[i], run[i + 1]) {
        if i < n { assert run[..n + 1][i] == run[i] && run[..n + 1][i + 1] == run[i + 1] && before[i] == acts[i]; }
      }
    }
  }

  /** Over a WriteBack the block of the buffer becomes the buffer's contents on disk; no other step
      changes the disk. */
  lemma DiskStep(s: State, e: Event, t: State)
    requires Inv(s) && Follows(s, e, t)
    ensures e.Act? && e.a.WriteBack? ==>
      && e.h in s.pcs && s.pcs[e.h].Held? && IsBuf(s, s.pcs[e.h].b) && s.bufs[s.pcs[e.h].b].key == s.pcs[e.h].key
      && t.disk == s.disk[s.pcs[e.h].key := s.bufs[s.pcs[e.h].b].data] && t.bufs == s.bufs && t.pcs == s.pcs
    ensures !(e.Act? && e.a.WriteBack?) ==> t.disk == s.disk
  {
    hide LocksOk, ListsOk, PlaceOk, UniqueOk, RefsOk, DataOk, PcsOk, Harmless;
    if e.Act? {
      if Ordinary(s, e.h, e.a) { StepHarmless(s, e.h, e.a, t); HarmlessDisk(s, t, e.h); }
      else { UseStep(s, e.h, e.a, t); }
    }
  }

  lemma HarmlessDisk(s: State, t: State, h: Handle)
    requires Harmless(s, t, h)
    ensures t.disk == s.disk && t.truth == s.truth
  {
  }

  /** The steps of a caller that has the buffer, or is about to read it. */
  lemma UseStep(s: State, h: Handle, a: Action, t: State)
    requires Moves(s, h, a, t) && !Ordinary(s, h, a)
    ensures s.pcs[h].SleepWait? || s.pcs[h].Locked? || s.pcs[h].Held?
    ensures IsBuf(s, s.pcs[h].b) && s.bufs[s.pcs[h].b].key == s.pcs[h].key && s.pcs[h].key.dev != 0
    ensures DataBut(s, t, s.pcs[h].b) && t.bufs[s.pcs[h].b].key == s.bufs[s.pcs[h].b].key && h in t.pcs && t.pcs == s.pcs[h := t.pcs[h]]
    ensures var b, x, y := s.pcs[h].b, s.bufs[s.pcs[h].b], t.bufs[s.pcs[h].b];
      && (s.pcs[h].SleepWait? ==> a.Go? && s.sleep[b].None? && t.sleep == s.sleep[b := Some(h)] && y == x && t.disk == s.disk && t.truth == s.truth && t.pcs[h].Locked?)
      && (s.pcs[h].Locked? ==> a.Go? && t.sleep == s.sleep && y.valid && y.data == (if x.valid then x.data else Get(s.disk, s.pcs[h].key)) && t.disk == s.disk && t.truth == s.truth && t.pcs[h].Held?)
      && (s.pcs[h].Held? ==> x.valid && y.valid && (a.SetData? || a.WriteBack? || a.DoRelease?))
      && (a.SetData? ==> y.data == a.d && t.sleep == s.sleep && t.disk == s.disk && t.truth == s.truth[s.pcs[h].key := a.d] && t.pcs == s.pcs)
      && (a.WriteBack? ==> t.bufs == s.bufs && t.sleep == s.sleep && t.disk == s.disk[s.pcs[h].key := x.data] && t.truth == s.truth && t.pcs == s.pcs)
      && (a.DoRelease? ==> y == x && t.sleep == s.sleep[b := None] && t.disk == s.disk && t.truth == s.truth && t.pcs[h] == Release(s.pcs[h].key, b))
  {
    hide ListsOk;
  }

  // ---------------------------------------------------------------- diligent callers

  /** Whoever has set data writes the buffer back before releasing it. */
  ghost predicate Diligent(acts: seq<Event>) {
    forall i, j :: 0 <= i < j < |acts| && acts[i].Act? && acts[i].a.SetData? && acts[j] == Act(acts[i].h, DoRelease) ==>
      exists k :: i < k < j && acts[k] == Act(acts[i].h, WriteBack)
  }

  /** h has set data and not written them back since. */
  predicate Unsaved(acts: seq<Event>, i: nat, h: Handle)
    requires i <= |acts|
    decreases i
  {
    i > 0 &&
    if acts[i - 1].Act? && acts[i - 1].h == h && acts[i - 1].a.SetData? then true
    else if acts[i - 1] == Act(h, WriteBack) then false
    else Unsaved(acts, i - 1, h)
  }

  lemma {:induction false} UnsavedSince(acts: seq<Event>, i: nat, h: Handle) returns (k: nat)
    requires i <= |acts| && Unsaved(acts, i, h)
    ensures k < i && acts[k].Act? && acts[k].h == h && acts[k].a.SetData? && forall j :: k < j < i ==> acts[j] != Act(h, WriteBack)
    decreases i
  {
    if acts[i - 1].Act? && acts[i - 1].h == h && acts[i - 1].a.SetData? { k := i - 1; } else { k := UnsavedSince(acts, i - 1, h); }
  }

  lemma {:induction false} SavedAtRelease(acts: seq<Event>, i: nat, h: Handle)
    requires Diligent(acts) && i < |acts| && acts[i] == Act(h, DoRelease)
    ensures !Unsaved(acts, i, h)
  {
    if Unsaved(acts, i, h) {
      var k := UnsavedSince(acts, i, h);
    }
  }

  /** The last contents that anybody has set for the block, or what the disk held at boot. */
  ghost function LastSet(run: seq<State>, acts: seq<Event>, i: nat, key: Key): Data
    requires i <= |acts| < |run|
    decreases i
  {
    if i == 0 then Get(run[0].disk, key)
    else
      var e, s := acts[i - 1], run[i - 1];
      if e.Act? && e.a.SetData? && e.h in s.pcs && s.pcs[e.h].Held? && s.pcs[e.h].key == key then e.a.d else LastSet(run, acts, i - 1, key)
  }

  /** A valid buffer equals the disk unless the holder of its sleep-lock has unsaved data. */
  ghost predicate Clean(s: State, acts: seq<Event>, i: nat)
    requires i <= |acts|
  {
    && |s.sleep| == |s.bufs|
    && (forall b :: IsBuf(s, b) && s.bufs[b].valid && s.bufs[b].key.dev != 0 ==>
          s.bufs[b].data == Get(s.disk, s.bufs[b].key) || (s.sleep[b].Some? && Unsaved(acts, i, s.sleep[b].value)))
    && forall h :: h in s.pcs && s.pcs[h].Release? ==> IsBuf(s, s.pcs[h].b) && s.bufs[s.pcs[h].b].valid && s.bufs[s.pcs[h].b].refcnt > 0
  }

  lemma {:induction false} CleanHarmless(s: State, t: State, h: Handle, a: Action, acts: seq<Event>, i: nat)
    requires Inv(s) && Inv(t) && Harmless(s, t, h) && i < |acts| && acts[i] == Act(h, a) && !a.SetData? && !a.WriteBack? && Clean(s, acts, i)
    ensures Clean(t, acts, i + 1)
  {
    HarmlessReleases(s, t, h);
    hide Inv;
    InvShape(t);
    forall g ensures Unsaved(acts, i + 1, g) == Unsaved(acts, i, g) { }
  }

  /** Nobody claims a buffer that is being released. */
  lemma HarmlessReleases(s: State, t: State, h: Handle)
    requires Inv(s) && Inv(t) && Harmless(s, t, h)
    requires forall g :: g in s.pcs && s.pcs[g].Release? ==> IsBuf(s, s.pcs[g].b) && s.bufs[s.pcs[g].b].valid
    ensures forall g :: g in t.pcs && t.pcs[g].Release? ==> IsBuf(t, t.pcs[g].b) && t.bufs[t.pcs[g].b].valid && t.bufs[t.pcs[g].b].refcnt > 0
  {
    hide Inv;
    forall g | g in t.pcs && t.pcs[g].Release? ensures IsBuf(t, t.pcs[g].b) && t.bufs[t.pcs[g].b].valid && t.bufs[t.pcs[g].b].refcnt > 0 {
      RefCounts(s, g);
      RefCounts(t, g);
    }
  }

  lemma {:induction false} CleanUse(s: State, t: State, h: Handle, a: Action, acts: seq<Event>, i: nat)
    requires Inv(s) && Inv(t) && Moves(s, h, a, t) && !Ordinary(s, h, a) && i < |acts| && acts[i] == Act(h, a) && Clean(s, acts, i)
    requires a.DoRelease? ==> !Unsaved(acts, i, h)
    ensures Clean(t, acts, i + 1)
  {
    hide Inv, Moves, Ordinary, UseEffect, Releasing;
    assert Releasing(s) by { CleanReleasing(s, acts, i); }
    UsePrep(s, h, a, t);
    UnsavedNext(acts, i, h, a);
    hide Unsaved;
    forall c | IsBuf(t, c) && t.bufs[c].valid && t.bufs[c].key.dev != 0
      ensures t.bufs[c].data == Get(t.disk, t.bufs[c].key) || (t.sleep[c].Some? && Unsaved(acts, i + 1, t.sleep[c].value))
    {
      UseOthers(s, t, h, a, c);
      if c != s.pcs[h].b {
        CleanElsewhere(s, t, h, a, acts, i, c);
      } else {
        CleanHere(s, t, h, a, acts, i);
      }
    }
    ReleasingClean(t);
  }

  lemma {:induction false} UnsavedNext(acts: seq<Event>, i: nat, h: Handle, a: Action)
    requires i < |acts| && acts[i] == Act(h, a)
    ensures Unsaved(acts, i + 1, h) == (if a.SetData? then true else if a.WriteBack? then false else Unsaved(acts, i, h))
    ensures forall g :: g != h ==> Unsaved(acts, i + 1, g) == Unsaved(acts, i, g)
  {
  }

  /** Whoever is releasing a buffer still refers to it, and it is valid. */
  ghost predicate Releasing(s: State) {
    forall h :: h in s.pcs && s.pcs[h].Release? ==> IsBuf(s, s.pcs[h].b) && s.bufs[s.pcs[h].b].valid && s.bufs[s.pcs[h].b].refcnt > 0
  }

  lemma CleanReleasing(s: State, acts: seq<Event>, i: nat)
    requires i <= |acts| && Clean(s, acts, i)
    ensures Releasing(s)
  {
  }

  lemma ReleasingClean(s: State)
    requires Releasing(s)
    ensures forall h :: h in s.pcs && s.pcs[h].Release? ==> IsBuf(s, s.pcs[h].b) && s.bufs[s.pcs[h].b].valid && s.bufs[s.pcs[h].b].refcnt > 0
  {
  }

  lemma UsePrep(s: State, h: Handle, a: Action, t: State)
    requires Inv(s) && Inv(t) && Moves(s, h, a, t) && !Ordinary(s, h, a) && Releasing(s)
    ensures UseEffect(s, t, h, a) && |t.sleep| == |t.bufs| && h in s.pcs && (s.pcs[h].SleepWait? || s.pcs[h].Locked? || s.pcs[h].Held?) && s.pcs[h].key.dev != 0
    ensures forall c :: IsBuf(s, c) && c != s.pcs[h].b ==> s.bufs[c].key != s.pcs[h].key && (s.sleep[c] == Some(h) ==> SleepOf(s.pcs[h]) == c)
    ensures Releasing(t)
  {
    UseStep(s, h, a, t);
    HeldSleep(s, h);
    KeysDiffer(s, s.pcs[h].b);
    InvShape(s);
    InvShape(t);
    hide Inv, Moves, Ordinary;
    UseReleases(s, t, h, a);
  }

  lemma UseOthers(s: State, t: State, h: Handle, a: Action, c: int)
    requires UseEffect(s, t, h, a) && IsBuf(t, c)
    ensures IsBuf(s, s.pcs[h].b) && IsBuf(s, c) && |s.sleep| == |s.bufs|
    ensures c != s.pcs[h].b ==> t.bufs[c].key == s.bufs[c].key && t.bufs[c].valid == s.bufs[c].valid
    ensures c == s.pcs[h].b ==> s.bufs[c].key == s.pcs[h].key
  {
  }

  lemma HeldSleep(s: State, h: Handle)
    requires Inv(s) && h in s.pcs
    ensures |s.sleep| == |s.bufs|
    ensures s.pcs[h].Held? || s.pcs[h].Locked? ==> IsBuf(s, s.pcs[h].b) && s.sleep[s.pcs[h].b] == Some(h)
    ensures forall c :: 0 <= c < |s.sleep| && s.sleep[c] == Some(h) ==> SleepOf(s.pcs[h]) == c
  {
    hide ListsOk, PlaceOk, UniqueOk, RefsOk, DataOk;
    assert PcOk(s, s.pcs[h]);
    MyLocks(s, h);
  }

  lemma KeysDiffer(s: State, b: int)
    requires Inv(s) && IsBuf(s, b) && s.bufs[b].key.dev != 0
    ensures forall c :: IsBuf(s, c) && c != b ==> s.bufs[c].key != s.bufs[b].key
  {
    hide LocksOk, ListsOk, PlaceOk, RefsOk, DataOk, PcsOk;
  }

  lemma UseReleases(s: State, t: State, h: Handle, a: Action)
    requires Inv(t) && h in s.pcs && h in t.pcs && t.pcs == s.pcs[h := t.pcs[h]] && (s.pcs[h].SleepWait? || s.pcs[h].Locked? || s.pcs[h].Held?)
    requires DataBut(s, t, s.pcs[h].b) && IsBuf(s, s.pcs[h].b) && (s.bufs[s.pcs[h].b].valid ==> t.bufs[s.pcs[h].b].valid)
    requires t.pcs[h].Release? ==> t.pcs[h].b == s.pcs[h].b && t.bufs[s.pcs[h].b].valid
    requires Releasing(s)
    ensures Releasing(t)
  {
    hide Inv;
    forall g | g in t.pcs && t.pcs[g].Release? ensures IsBuf(t, t.pcs[g].b) && t.bufs[t.pcs[g].b].valid && t.bufs[t.pcs[g].b].refcnt > 0 { RefCounts(t, g); }
  }

  /** The part of UseStep about the contents. */
  ghost predicate UseEffect(s: State, t: State, h: Handle, a: Action) {
    && h in s.pcs && (s.pcs[h].SleepWait? || s.pcs[h].Locked? || s.pcs[h].Held?) && IsBuf(s, s.pcs[h].b) && |s.sleep| == |s.bufs|
    && DataBut(s, t, s.pcs[h].b) && s.bufs[s.pcs[h].b].key == s.pcs[h].key && t.bufs[s.pcs[h].b].key == s.pcs[h].key
    && var b, x, y := s.pcs[h].b, s.bufs[s.pcs[h].b], t.bufs[s.pcs[h].b];
       && (s.pcs[h].SleepWait? ==> a.Go? && s.sleep[b].None? && t.sleep == s.sleep[b := Some(h)] && y == x && t.disk == s.disk)
       && (s.pcs[h].Locked? ==> a.Go? && t.sleep == s.sleep && y.data == (if x.valid then x.data else Get(s.disk, s.pcs[h].key)) && t.disk == s.disk)
       && (s.pcs[h].Held? ==> x.valid && s.sleep[b] == Some(h) && (a.SetData? || a.WriteBack? || a.DoRelease?))
       && (a.SetData? ==> t.sleep == s.sleep && t.disk == s.disk)
       && (a.WriteBack? ==> y == x && t.sleep == s.sleep && t.disk == s.disk[s.pcs[h].key := x.data])
       && (a.DoRelease? ==> y == x && t.sleep == s.sleep[b := None] && t.disk == s.disk)
  }

  lemma {:induction false} CleanElsewhere(s: State, t: State, h: Handle, a: Action, acts: seq<Event>, i: nat, c: int)
    requires UseEffect(s, t, h, a) && i < |acts| && IsBuf(s, c) && c != s.pcs[h].b && s.bufs[c].key != s.pcs[h].key && s.bufs[c].valid
    requires s.bufs[c].data == Get(s.disk, s.bufs[c].key) || (s.sleep[c].Some? && Unsaved(acts, i, s.sleep[c].value))
    requires forall g :: g != h ==> Unsaved(acts, i + 1, g) == Unsaved(acts, i, g)
    requires s.sleep[c] == Some(h) ==> SleepOf(s.pcs[h]) == c
    ensures t.bufs[c].data == Get(t.disk, t.bufs[c].key) || (t.sleep[c].Some? && Unsaved(acts, i + 1, t.sleep[c].value))
  {
    hide Unsaved;
  }

  lemma {:induction false} CleanHere(s: State, t: State, h: Handle, a: Action, acts: seq<Event>, i: nat)
    requires UseEffect(s, t, h, a) && i < |acts|
    requires var b := s.pcs[h].b; s.bufs[b].valid ==> s.bufs[b].data == Get(s.disk, s.bufs[b].key) || (s.sleep[b].Some? && Unsaved(acts, i, s.sleep[b].value))
    requires a.DoRelease? ==> !Unsaved(acts, i, h)
    requires Unsaved(acts, i + 1, h) == (if a.SetData? then true else if a.WriteBack? then false else Unsaved(acts, i, h))
    requires forall g :: g != h ==> Unsaved(acts, i + 1, g) == Unsaved(acts, i, g)
    ensures var b := s.pcs[h].b;
      t.bufs[b].valid ==> t.bufs[b].data == Get(t.disk, t.bufs[b].key) || (t.sleep[b].Some? && Unsaved(acts, i + 1, t.sleep[b].value))
  {
    hide Unsaved;
    var b := s.pcs[h].b;
    assert s.pcs[h].Locked? && t.sleep[b].Some? ==> Unsaved(acts, i + 1, t.sleep[b].value) == Unsaved(acts, i, t.sleep[b].value);
  }

  lemma {:induction false} CleanTick(s: State, t: State, acts: seq<Event>, i: nat)
    requires i < |acts| && acts[i].Tick? && t == s.(ticks := s.ticks + 1) && Clean(s, acts, i)
    ensures Clean(t, acts, i + 1)
  {
    forall g ensures Unsaved(acts, i + 1, g) == Unsaved(acts, i, g) { }
  }

  lemma {:induction false} CleanStart(s: State, acts: seq<Event>)
    requires Init(s)
    ensures Clean(s, acts, 0)
  {
  }

  lemma {:induction false} CleanStep(s: State, t: State, acts: seq<Event>, i: nat)
    requires Inv(s) && Inv(t) && i < |acts| && Follows(s, acts[i], t) && Diligent(acts) && Clean(s, acts, i)
    ensures Clean(t, acts, i + 1)
  {
    hide Inv, Moves, Clean, Diligent, Ordinary, Unsaved, Harmless;
    match acts[i]
    case Tick => CleanTick(s, t, acts, i);
    case Act(h, a) =>
      if Ordinary(s, h, a) {
        StepHarmless(s, h, a, t);
        CleanHarmless(s, t, h, a, acts, i);
      } else {
        if a.DoRelease? { SavedAtRelease(acts, i, h); }
        CleanUse(s, t, h, a, acts, i);
      }
  }

  lemma {:induction false} RunClean(run: seq<State>, acts: seq<Event>, i: nat)
    requires IsTrace(run, acts) && Diligent(acts) && i <= |acts|
    ensures Clean(run[i], acts, i)
    decreases i
  {
    hide Follows, Clean, Inv, Diligent, Init;
    TraceIsRun(run, acts);
    if i == 0 {
      CleanStart(run[0], acts);
    } else {
      assert Follows(run[i - 1], acts[i - 1], run[i]);
      RunClean(run, acts, i - 1);
      RunInv(run, i - 1);
      RunInv(run, i);
      CleanStep(run[i - 1], run[i], acts, i - 1);
    }
  }

  /** Nobody else refers to a buffer with one reference, so its sleep-lock is free once its only user is
      releasing it. */
  lemma {:induction false} CleanDrop(s: State, acts: seq<Event>, i: nat, h: Handle)
    requires Inv(s) && i <= |acts| && Clean(s, acts, i)
    ensures !DropsDirty(s, h)
  {
    if DropsDirty(s, h) {
      var b := s.pcs[h].b;
      LastUser(s, h, b);
      hide Inv;
    }
  }

  lemma LastUser(s: State, h: Handle, b: int)
    requires Inv(s) && h in s.pcs && s.pcs[h].Release? && s.pcs[h].b == b && IsBuf(s, b) && s.bufs[b].refcnt == 1
    ensures s.bufs[b].key == s.pcs[h].key && s.bufs[b].key.dev != 0 && b < |s.sleep| && s.sleep[b].None?
  {
    hide ListsOk, PlaceOk, UniqueOk, DataOk;
    assert PcOk(s, s.pcs[h]);
    if s.sleep[b].Some? {
      var g := s.sleep[b].value;
      assert SleepOf(s.pcs[g]) == b;
      assert {h, g} <= RefSet(s.pcs, b);
      SubsetSize({h, g}, RefSet(s.pcs, b));
    }
  }

  /** A block's last contents change only when somebody sets them. */
  lemma TruthStep(s: State, e: Event, t: State, key: Key)
    requires Follows(s, e, t)
    ensures Get(t.truth, key) == if e.Act? && e.a.SetData? && e.h in s.pcs && s.pcs[e.h].Held? && s.pcs[e.h].key == key then e.a.d else Get(s.truth, key)
  {
    hide Moves, Harmless;
    if e.Act? {
      if Ordinary(s, e.h, e.a) { StepHarmless(s, e.h, e.a, t); HarmlessDisk(s, t, e.h); } else { UseStep(s, e.h, e.a, t); }
    }
  }

  lemma {:induction false} TruthIsLastSet(run: seq<State>, acts: seq<Event>, i: nat, key: Key)
    requires IsTrace(run, acts) && i <= |acts|
    ensures Get(run[i].truth, key) == LastSet(run, acts, i, key)
    decreases i
  {
    hide Moves, Follows;
    if i > 0 {
      assert Follows(run[i - 1], acts[i - 1], run[i]);
      TruthIsLastSet(run, acts, i - 1, key);
      TruthStep(run[i - 1], acts[i - 1], run[i], key);
    }
  }

  /** If every caller writes back what it has set before it releases, then in every interleaving no
      release leaves the disk behind, and every bread shows the last contents set for its block, or what
      was on disk at boot. */
  lemma DiligentRuns(run: seq<State>, acts: seq<Event>, i: nat, h: Handle)
    requires IsTrace(run, acts) && Diligent(acts) && i <= |acts|
    ensures !DropsDirty(run[i], h) && run[i].stray == {}
    ensures h in run[i].pcs && run[i].pcs[h].Held? ==>
      && IsBuf(run[i], run[i].pcs[h].b) && run[i].bufs[run[i].pcs[h].b].key == run[i].pcs[h].key
      && run[i].bufs[run[i].pcs[h].b].data == LastSet(run, acts, i, run[i].pcs[h].key)
  {
    TraceIsRun(run, acts);
    forall j, g | 0 <= j <= i ensures !DropsDirty(run[j], g) {
      RunClean(run, acts, j);
      RunInv(run, j);
      hide Inv, Clean, DropsDirty, IsTrace, IsRun;
      CleanDrop(run[j], acts, j, g);
    }
    hide Diligent, DropsDirty, Moves, Init, Inv;
    CleanRunsAreSafe(run, i);
    if h in run[i].pcs && run[i].pcs[h].Held? {
      ReadsLastWrite(run, i, h);
      TruthIsLastSet(run, acts, i, run[i].pcs[h].key);
    }
  }

  // ---------------------------------------------------------------- the block asked for, and pins

  predicate Busy(pc: Pc) { !pc.Idle? && !pc.Panicked? }

  /** h works on the block it was called for; it starts to when it is called. */
  ghost predicate KeyMoves(s: State, h: Handle, a: Action, t: State) {
    && h in s.pcs && h in t.pcs
    && (Busy(t.pcs[h]) ==> (Busy(s.pcs[h]) && t.pcs[h].key == s.pcs[h].key) || (s.pcs[h].Idle? && a == Call(t.pcs[h].key)))
    && (s.pcs[h].Idle? ==> Busy(t.pcs[h])) && (t.pcs[h].Idle? ==> s.pcs[h].ReleaseCounted?)
  }

  lemma LookupKey(s: State, h: Handle, a: Action)
    requires Shape(s) && Enabled(s, h, a) && PcOk(s, s.pcs[h]) && InLookup(s.pcs[h])
    ensures KeyMoves(s, h, a, StepLookup(s, h, a))
  {
  }

  lemma ScanKey(s: State, h: Handle)
    requires Shape(s) && h in s.pcs && PcOk(s, s.pcs[h]) && InScan(s.pcs[h])
    ensures KeyMoves(s, h, Go, StepScan(s, h))
  {
  }

  lemma MoveKey(s: State, h: Handle)
    requires Shape(s) && h in s.pcs && PcOk(s, s.pcs[h]) && InMove(s.pcs[h]) && ListsOk(s)
    ensures KeyMoves(s, h, Go, StepMove(s, h))
  {
    hide ListsOk, Unlink;
    if s.pcs[h].Chosen? { BeforeOk(s, s.pcs[h].best.o, s.pcs[h].best.q); }
  }

  lemma UseKey(s: State, h: Handle, a: Action)
    requires Shape(s) && Enabled(s, h, a) && PcOk(s, s.pcs[h]) && !InLookup(s.pcs[h]) && !InScan(s.pcs[h]) && !InMove(s.pcs[h])
    ensures KeyMoves(s, h, a, StepUse(s, h, a))
  {
  }

  lemma StepKey(s: State, h: Handle, a: Action, t: State)
    requires Moves(s, h, a, t)
    ensures KeyMoves(s, h, a, t)
  {
    GoOnly(s, h, a);
    hide ListsOk, Enabled, PcOk, StepScan, StepLookup, StepMove, StepUse, KeyMoves;
    if InLookup(s.pcs[h]) { LookupKey(s, h, a); }
    else if InScan(s.pcs[h]) { ScanKey(s, h); }
    else if InMove(s.pcs[h]) { MoveKey(s, h); }
    else { UseKey(s, h, a); }
  }

  /** In every run the block that a handle works on, and whose buffer bread gives it, is the one it was
      last called for. */
  lemma {:induction false} BlockAskedFor(run: seq<State>, acts: seq<Event>, i: nat, h: Handle) returns (m: nat)
    requires IsTrace(run, acts) && i <= |acts| && h in run[i].pcs && Busy(run[i].pcs[h])
    ensures m < i && acts[m] == Act(h, Call(run[i].pcs[h].key))
    ensures forall j :: m < j <= i ==> h in run[j].pcs && Busy(run[j].pcs[h])
    decreases i
  {
    hide Busy;
    m := 0;
    if i == 0 {
      IdleAtBoot(run[0], h);
    } else {
      TraceIsRun(run, acts);
      RunInv(run, i - 1);
      assert Follows(run[i - 1], acts[i - 1], run[i]);
      hide IsTrace, IsRun, Inv;
      var now := AskedNow(run[i - 1], acts[i - 1], run[i], h);
      if now { m := i - 1; } else { m := BlockAskedFor(run, acts, i - 1, h); }
    }
  }

  lemma IdleAtBoot(s: State, h: Handle)
    requires Init(s)
    ensures h in s.pcs ==> !Busy(s.pcs[h])
  {
  }

  lemma AskedNow(s: State, e: Event, t: State, h: Handle) returns (now: bool)
    requires Inv(s) && Follows(s, e, t) && h in t.pcs && Busy(t.pcs[h])
    ensures now ==> e == Act(h, Call(t.pcs[h].key))
    ensures !now ==> h in s.pcs && Busy(s.pcs[h]) && s.pcs[h].key == t.pcs[h].key
  {
    hide Inv, Moves;
    now := false;
    if e.Act? {
      if e.h == h {
        StepKey(s, h, e.a, t);
        now := s.pcs[h].Idle?;
      } else {
        SamePc(s, e.h, e.a, t, h);
      }
    }
  }

  /** bpin and bunpin change the count and the pins of the caller's buffer by one, under its bucket's lock,
      and give the buffer back to the caller; nothing else changes a pin. */
  lemma PinStep(s: State, h: Handle, a: Action, t: State)
    requires Inv(s) && Moves(s, h, a, t)
    ensures Pins(s, h, a, t)
  {
    if s.pcs[h].Pin? { PinnedTwice(s, h); }
    GoOnly(s, h, a);
    hide Inv, ListsOk, StepScan, StepLookup, StepMove, StepUse, PcOk, Enabled;
    if InLookup(s.pcs[h]) { LookupPins(s, h, a); }
    else if InScan(s.pcs[h]) { ScanPins(s, h); }
    else if InMove(s.pcs[h]) { MovePins(s, h); }
    else { hide Pins; UsePins(s, h, a); }
  }

  ghost predicate Pins(s: State, h: Handle, a: Action, t: State) {
    && h in s.pcs
    && (s.pcs[h].Held? && (a.DoPin? || a.DoUnpin?) ==> t == s.(pcs := s.pcs[h := Pin(s.pcs[h].key, s.pcs[h].b, a.DoPin?)]))
    && (s.pcs[h].Pin? ==> PinCounts(s, h, s.pcs[h].b, s.pcs[h].up, t) && t.pcs[h] == PinCounted(s.pcs[h].key, s.pcs[h].b))
    && (s.pcs[h].PinCounted? ==> h in t.pcs && t.pcs[h] == Held(s.pcs[h].key, s.pcs[h].b))
    && (!s.pcs[h].Pin? ==> t.pins == s.pins)
  }

  ghost predicate PinCounts(s: State, h: Handle, b: int, up: bool, t: State) {
    && IsBuf(s, b) && h in t.pcs && |t.bufs| == |s.bufs| && b < |s.pins| && |t.pins| == |s.pins|
    && if up then t.bufs[b].refcnt == s.bufs[b].refcnt + 1 && t.pins[b] == s.pins[b] + 1
       else t.bufs[b].refcnt + 1 == s.bufs[b].refcnt && t.pins[b] + 1 == s.pins[b]
  }

  lemma UsePins(s: State, h: Handle, a: Action)
    requires Shape(s) && Enabled(s, h, a) && PcOk(s, s.pcs[h]) && !InLookup(s.pcs[h]) && !InScan(s.pcs[h]) && !InMove(s.pcs[h])
    requires s.pcs[h].Pin? && !s.pcs[h].up ==> s.bufs[s.pcs[h].b].refcnt >= 2
    ensures Pins(s, h, a, StepUse(s, h, a))
  {
  }

  lemma LookupPins(s: State, h: Handle, a: Action)
    requires Shape(s) && Enabled(s, h, a) && PcOk(s, s.pcs[h]) && InLookup(s.pcs[h])
    ensures StepLookup(s, h, a).pins == s.pins
  {
  }

  lemma ScanPins(s: State, h: Handle)
    requires Shape(s) && h in s.pcs && PcOk(s, s.pcs[h]) && InScan(s.pcs[h])
    ensures StepScan(s, h).pins == s.pins
  {
  }

  lemma MovePins(s: State, h: Handle)
    requires Shape(s) && h in s.pcs && PcOk(s, s.pcs[h]) && InMove(s.pcs[h]) && ListsOk(s)
    ensures StepMove(s, h).pins == s.pins
  {
    hide ListsOk, Unlink;
    var pc := s.pcs[h];
    if pc.Chosen? {
      BeforeOk(s, pc.best.o, pc.best.q);
      UnlinkBufs(s, pc.best.o, pc.best.q, pc.best.before, pc.best.v);
    }
  }
}
