/** Every step of the process table keeps its invariant. */
module ProcessProof {
  import opened Common
  import opened Processes

  // ---------------------------------------------------------------- who runs where

  /** CPU c executes the thread of p. */
  ghost predicate Acts(s: State, c: nat, p: nat) { c < |s.cpus| && s.cpus[c].on == Some(p) && p < |s.procs| }

  lemma Runs(s: State, c: nat, p: nat)
    requires Inv(s) && Acts(s, c, p)
    ensures s.procs[p].where == Some(c) && s.procs[p].state == StateAt(s.procs[p].pc) && !s.procs[p].pc.Gone?
    ensures forall i :: 0 <= i < |s.plock| ==> (s.plock[i] == Some(c) <==> HeldAt(s.procs[p].pc, p) == i)
    ensures s.wlock == Some(c) <==> HasWait(s.procs[p].pc)
    ensures BoundsOk(s, p) && !s.procs[p].state.Used? && !s.procs[p].state.Unused?
  {
    hide HeldAt, HasWait, MakersOk, WaitsOk, PidsOk, ParentsOk;
    assert CpuOk(s, c) && ProcOk(s, p);
    assert HoldsWait(s, c) == HasWait(s.procs[p].pc);
    assert Held(s, c) == HeldAt(s.procs[p].pc, p);
  }

  /** Only a thread on a CPU holds wait_lock. */
  lemma WaitHolder(s: State, p: nat)
    requires Sized(s) && ProcsOk(s) && LocksOk(s) && CpusOk(s) && p < |s.procs| && HasWait(s.procs[p].pc)
    ensures s.procs[p].where.Some? && Acts(s, s.procs[p].where.value, p) && s.wlock == s.procs[p].where
  {
    assert ProcOk(s, p);
  }

  lemma WaitUnique(s: State, p: nat, q: nat)
    requires Sized(s) && ProcsOk(s) && LocksOk(s) && CpusOk(s) && p < |s.procs| && q < |s.procs|
    requires HasWait(s.procs[p].pc) && HasWait(s.procs[q].pc)
    ensures p == q
  {
    WaitHolder(s, p);
    WaitHolder(s, q);
  }

  /** While c holds the lock of k and runs another thread, k is off its stack or runs without its lock. */
  lemma LockedAway(s: State, c: nat, p: nat, k: nat)
    requires Inv(s) && Acts(s, c, p) && k < |s.procs| && k != p && s.plock[k] == Some(c)
    ensures s.procs[k].where.Some? ==> s.procs[k].state.Running? && HeldAt(s.procs[k].pc, k) != k && !Resumes(s.procs[k].pc)
    ensures !s.procs[k].pc.WaitSleep1? && !s.procs[k].pc.WaitSleep2? && !s.procs[k].pc.SleepSched?
    ensures Live(s.procs[k].state) && !s.procs[k].state.Running? ==> s.procs[k].where.None? && Resumes(s.procs[k].pc)
    ensures s.procs[k].state.Zombie? ==> s.procs[k].where.None? && s.procs[k].pc.Gone?
  {
    hide MakersOk, WaitsOk, PidsOk, ParentsOk;
    assert ProcOk(s, k);
    if s.procs[k].where.Some? {
      var d := s.procs[k].where.value;
      assert Held(s, d) == k <==> s.plock[k] == Some(d);
      assert CpuOk(s, d);
    }
  }

  // ---------------------------------------------------------------- locks and places

  function Holder(mine: bool, was: Option<nat>, c: nat): Option<nat> {
    if mine then Some(c) else if was == Some(c) then None else was
  }

  /** The locks after the thread of p on c moved: it holds what its place says and took only free ones. */
  ghost predicate LocksMoved(s: State, t: State, c: nat, p: nat)
    requires p < |t.procs|
  {
    var h := HeldAt(t.procs[p].pc, p);
    && |t.plock| == |s.plock|
    && (forall i :: 0 <= i < |s.plock| ==>
          t.plock[i] == Holder(h == i, s.plock[i], c) && (h == i ==> s.plock[i].None? || s.plock[i] == Some(c)))
    && t.wlock == Holder(HasWait(t.procs[p].pc), s.wlock, c)
    && (HasWait(t.procs[p].pc) ==> s.wlock.None? || s.wlock == Some(c))
  }

  /** The table changed at p and k only. */
  ghost predicate Only(s: State, t: State, p: nat, k: nat) {
    && |t.procs| == |s.procs| && t.init == s.init && |t.plock| == |s.plock| && p < |s.procs| && k < |s.procs|
    && forall q :: 0 <= q < |s.procs| && q != p && q != k ==> t.procs[q] == s.procs[q]
  }

  lemma StructureKept(s: State, t: State, c: nat, p: nat, k: nat)
    requires Inv(s) && Acts(s, c, p) && Only(s, t, p, k) && t.cpus == s.cpus && LocksMoved(s, t, c, p)
    requires t.procs[p].where == s.procs[p].where && t.procs[k].where == s.procs[k].where
    requires k == p || t.procs[k].pc == s.procs[k].pc || t.procs[k].where.None?
    requires ProcOk(t, p) && BoundsOk(t, p) && ProcOk(t, k) && BoundsOk(t, k)
    ensures Sized(t) && CpusOk(t) && ProcsOk(t) && LocksOk(t)
  {
    hide HeldAt, HasWait, StateAt, MakersOk, WaitsOk, PidsOk, ParentsOk, Resumes, Plain, Inner;
    Runs(s, c, p);
    forall d | 0 <= d < |t.cpus| ensures CpuOk(t, d) { assert CpuOk(s, d); }
    forall q | 0 <= q < |t.procs| ensures ProcOk(t, q) && BoundsOk(t, q) {
      assert ProcOk(s, q) && BoundsOk(s, q);
    }
    forall d | 0 <= d < |t.cpus| && d != c ensures Held(t, d) == Held(s, d) && HoldsWait(t, d) == HoldsWait(s, d) {
      OtherCpu(s, t, c, d, p, k);
    }
    assert Held(t, c) == HeldAt(t.procs[p].pc, p) && HoldsWait(t, c) == HasWait(t.procs[p].pc);
    hide CpusOk, ProcsOk, Held, HoldsWait;
    LocksFollow(s, t, c, p);
  }

  lemma OtherCpu(s: State, t: State, c: nat, d: nat, p: nat, k: nat)
    requires Sized(s) && CpusOk(s) && Acts(s, c, p) && Only(s, t, p, k) && t.cpus == s.cpus && d < |s.cpus| && d != c
    requires s.procs[p].where == Some(c) && t.procs[k].where == s.procs[k].where
    requires k == p || t.procs[k].pc == s.procs[k].pc || t.procs[k].where.None?
    ensures Held(t, d) == Held(s, d) && HoldsWait(t, d) == HoldsWait(s, d)
  {
    hide HeldAt, HasWait;
    assert CpuOk(s, d);
  }

  lemma LocksFollow(s: State, t: State, c: nat, p: nat)
    requires Sized(s) && Sized(t) && LocksOk(s) && p < |t.procs| && LocksMoved(s, t, c, p) && |t.cpus| == |s.cpus| && c < |t.cpus|
    requires forall d :: 0 <= d < |t.cpus| && d != c ==> Held(t, d) == Held(s, d) && HoldsWait(t, d) == HoldsWait(s, d)
    requires Held(t, c) == HeldAt(t.procs[p].pc, p) && HoldsWait(t, c) == HasWait(t.procs[p].pc)
    ensures LocksOk(t)
  {
    hide HeldAt, HasWait, Held, HoldsWait;
    forall d, k | 0 <= d < |t.cpus| && 0 <= k < |t.plock| ensures t.plock[k] == Some(d) <==> Held(t, d) == k {
      assert s.plock[k] == Some(d) <==> Held(s, d) == k;
    }
    forall d | 0 <= d < |t.cpus| ensures t.wlock == Some(d) <==> HoldsWait(t, d) {
      assert s.wlock == Some(d) <==> HoldsWait(s, d);
    }
  }

  // ---------------------------------------------------------------- the other parts

  lemma ParentsKept(s: State, t: State)
    requires ParentsOk(s) && |t.procs| == |s.procs| && t.init == s.init
    requires forall q :: 0 <= q < |s.procs| ==>
      && t.procs[q].parent == s.procs[q].parent && (Live(s.procs[q].state) ==> Live(t.procs[q].state))
      && (t.procs[q].state.Unused? ==> s.procs[q].state.Unused? || s.procs[q].parent.None?)
      && (Live(t.procs[q].state) || t.procs[q].state.Zombie? ==> Live(s.procs[q].state) || s.procs[q].state.Zombie?)
    ensures ParentsOk(t)
  {
    forall q | 0 <= q < |t.procs| ensures ParentOk(t, q) { assert ParentOk(s, q); }
  }

  /** The entry is as it was, but for a parent other than p. */
  ghost predicate SameEntry(x: Proc, y: Proc, p: nat) {
    y.state == x.state && y.where == x.where && y.pc == x.pc && (y.parent == x.parent || x.parent == Some(p))
  }

  lemma MakersKept(s: State, t: State, p: nat)
    requires MakersOk(s) && |t.procs| == |s.procs| && p < |s.procs|
    requires forall q :: 0 <= q < |s.procs| && q != p ==>
      t.procs[q].pc == s.procs[q].pc || Target(t.procs[q].pc) == Target(s.procs[q].pc) == -1
    requires var k := Target(t.procs[p].pc);
      && MakeOk(t, p)
      && (k == -1 || k == Target(s.procs[p].pc) || (0 <= k < |s.procs| && s.procs[k].state.Unused?))
    requires forall k :: 0 <= k < |s.procs| && s.procs[k].state.Used? ==> SameEntry(s.procs[k], t.procs[k], p) || k == Target(s.procs[p].pc)
    ensures MakersOk(t)
  {
    hide Target, Inner;
    forall q | 0 <= q < |t.procs| ensures MakeOk(t, q) {
      if q != p { assert MakeOk(s, q); }
    }
    forall q, r | 0 <= q < |t.procs| && 0 <= r < |t.procs| && Target(t.procs[q].pc) == Target(t.procs[r].pc) >= 0 ensures q == r {
      assert MakeOk(s, q) && MakeOk(s, r);
    }
  }

  lemma HolderKept(s: State, t: State, q: nat)
    requires |t.procs| == |s.procs| && t.init == s.init && q < |s.procs| && t.procs[q].pc == s.procs[q].pc && HolderOk(s, q)
    requires forall i :: 0 <= i < |s.procs| ==> t.procs[i].parent == s.procs[i].parent && (t.procs[i].state.Zombie? <==> s.procs[i].state.Zombie?)
    requires forall i :: Committed(t, i) ==> Committed(s, i)
    ensures HolderOk(t, q)
  {
    hide Committed;
  }

  lemma WaitsKept(s: State, t: State, p: nat)
    requires WaitsOk(s) && |t.procs| == |s.procs| && t.init == s.init && p < |s.procs|
    requires forall q :: 0 <= q < |s.procs| && q != p ==> t.procs[q].pc == s.procs[q].pc || !(HasWait(s.procs[q].pc) || HasWait(t.procs[q].pc))
    requires forall i :: 0 <= i < |s.procs| ==> t.procs[i].parent == s.procs[i].parent && (t.procs[i].state.Zombie? <==> s.procs[i].state.Zombie?)
    requires forall i :: Committed(t, i) ==> Committed(s, i)
    requires HasWait(t.procs[p].pc) ==> HolderOk(t, p)
    requires Rousing(s, p) ==> Rousing(t, p) || !Committed(t, t.init)
    ensures WaitsOk(t)
  {
    hide Committed, HolderOk;
    forall q | 0 <= q < |t.procs| && HasWait(t.procs[q].pc) ensures HolderOk(t, q) {
      if q != p { HolderKept(s, t, q); }
    }
    forall q | Committed(t, q) && HasZombie(t, q) ensures q == t.init && exists r :: 0 <= r < |t.procs| && Rousing(t, r) {
      assert HasZombie(s, q);
      var r :| 0 <= r < |s.procs| && Rousing(s, r);
      assert HasWait(s.procs[r].pc);
      assert Rousing(t, r);
    }
  }

  /** The holder of wait_lock may change parents and zombies. */
  lemma WaitsByHolder(s: State, t: State, p: nat)
    requires Sized(s) && ProcsOk(s) && LocksOk(s) && CpusOk(s) && |t.procs| == |s.procs| && p < |s.procs| && HasWait(s.procs[p].pc)
    requires forall q :: 0 <= q < |s.procs| && q != p ==> t.procs[q].pc == s.procs[q].pc
    requires HasWait(t.procs[p].pc) ==> HolderOk(t, p)
    requires forall q :: Committed(t, q) && HasZombie(t, q) ==> q == t.init && Rousing(t, p)
    ensures WaitsOk(t)
  {
    hide HasWait, HolderOk, Committed, HasZombie, Rousing, ProcOk, CpuOk;
    forall q | 0 <= q < |t.procs| && HasWait(t.procs[q].pc) ensures HolderOk(t, q) {
      if q != p { WaitUnique(s, p, q); }
    }
  }

  lemma KeptStays(s: State, t: State, e: Exit)
    requires Kept(s, e) && |t.procs| == |s.procs| && |s.reaps| <= |t.reaps| && s.reaps == t.reaps[..|s.reaps|]
    requires forall k :: 0 <= k < |s.procs| && s.procs[k].state.Zombie? ==>
      Reaped(t, s.procs[k].pid) || (t.procs[k].state.Zombie? && t.procs[k].pid == s.procs[k].pid && t.procs[k].xstate == s.procs[k].xstate)
    ensures Kept(t, e)
  {
    if Reaped(s, e.pid) {
      var i :| 0 <= i < |s.reaps| && s.reaps[i].pid == e.pid;
      assert t.reaps[i] == s.reaps[i];
    }
  }

  lemma PidsKept(s: State, t: State)
    requires PidsOk(s) && |t.procs| == |s.procs| && t.nextpid == s.nextpid && t.exits == s.exits && t.reaps == s.reaps
    requires forall k :: 0 <= k < |s.procs| ==>
      || t.procs[k].state.Unused?
      || (&& t.procs[k].pid == s.procs[k].pid && t.procs[k].xstate == s.procs[k].xstate && !s.procs[k].state.Unused?
          && (t.procs[k].state.Zombie? <==> s.procs[k].state.Zombie?))
    requires forall k :: 0 <= k < |s.procs| && s.procs[k].state.Zombie? ==> !t.procs[k].state.Unused?
    ensures PidsOk(t)
  {
    forall k | 0 <= k < |t.procs| ensures PidOk(t, k) { assert PidOk(s, k); }
    forall i | 0 <= i < |t.exits| ensures Kept(t, t.exits[i]) { assert Kept(s, s.exits[i]); KeptStays(s, t, s.exits[i]); }
  }

  // ---------------------------------------------------------------- steps that only move a thread

  /** The thread of p at another place, with other locks. */
  function Shift(s: State, p: nat, pc: Pc, pl: seq<Option<nat>>, wl: Option<nat>): State
    requires p < |s.procs|
  {
    s.(procs := s.procs[p := s.procs[p].(pc := pc)], plock := pl, wlock := wl)
  }

  /** One lock was taken or given back, or none. */
  ghost predicate OneLock(s: State, c: nat, p: nat, pc: Pc, pl: seq<Option<nat>>, wl: Option<nat>)
    requires p < |s.procs|
  {
    var (h, h') := (HeldAt(s.procs[p].pc, p), HeldAt(pc, p));
    var (w, w') := (HasWait(s.procs[p].pc), HasWait(pc));
    || (pl == s.plock && wl == s.wlock && h' == h && w' == w)
    || (0 <= h' < |s.plock| && s.plock[h'].None? && pl == s.plock[h' := Some(c)] && h == -1 && wl == s.wlock && w' == w)
    || (0 <= h < |s.plock| && pl == s.plock[h := None] && h' == -1 && wl == s.wlock && w' == w)
    || (pl == s.plock && h' == h && s.wlock.None? && wl == Some(c) && w')
    || (pl == s.plock && h' == h && w && wl == None && !w')
  }

  lemma LocksByOne(s: State, t: State, c: nat, p: nat)
    requires Inv(s) && Acts(s, c, p) && p < |t.procs| && OneLock(s, c, p, t.procs[p].pc, t.plock, t.wlock)
    ensures LocksMoved(s, t, c, p)
  {
    hide HeldAt, HasWait, Inv;
    Runs(s, c, p);
  }

  /** The new place asks nothing that the old one did not give. */
  ghost predicate GoodMove(s: State, p: nat, pc: Pc)
    requires p < |s.procs|
  {
    var old_ := s.procs[p].pc;
    && BoundsAt(s, p, pc)
    && StateAt(pc) == StateAt(old_) && !pc.Gone? && !StateAt(old_).Sleeping?
    && MakeAt(s, p, pc) && (Target(pc) == -1 || Target(pc) == Target(old_))
    && (HasWait(pc) ==> HolderAt(s, p, pc))
    && (pc.WaitSleep1? || pc.WaitSleep2? ==> old_.WaitSleep1?)
    && (RousingAt(s, old_) ==> RousingAt(s, pc) || !Committed(s, s.init))
  }

  lemma MoveInv(s: State, c: nat, p: nat, pc: Pc, pl: seq<Option<nat>>, wl: Option<nat>)
    requires Inv(s) && Acts(s, c, p) && OneLock(s, c, p, pc, pl, wl) && GoodMove(s, p, pc)
    ensures Inv(Shift(s, p, pc, pl, wl))
  {
    hide HeldAt, HasWait, StateAt, Target, MakersOk, WaitsOk, PidsOk, ParentsOk, Resumes, Plain, Inner, HolderAt, OneLock, RousingAt, BoundsAt, MakeAt;
    var t := Shift(s, p, pc, pl, wl);
    Runs(s, c, p);
    LocksByOne(s, t, c, p);
    assert ProcOk(s, p);
    MovedFacts(s, c, p, pc, pl, wl);
    hide CpusOk, LocksOk;
    StructureKept(s, t, c, p, p);
    hide ProcsOk, ProcOk, LocksMoved, GoodMove;
    ParentsKept(s, t);
    PidsKept(s, t);
    MakersKept(s, t, p);
    WaitsKept(s, t, p);
  }

  lemma MovedFacts(s: State, c: nat, p: nat, pc: Pc, pl: seq<Option<nat>>, wl: Option<nat>)
    requires Inv(s) && Acts(s, c, p) && GoodMove(s, p, pc)
    ensures var t := Shift(s, p, pc, pl, wl);
      && BoundsOk(t, p) && MakeOk(t, p) && (HasWait(pc) ==> HolderOk(t, p))
      && (Target(pc) == -1 || Target(pc) == Target(s.procs[p].pc))
      && (forall i :: Committed(t, i) ==> Committed(s, i)) && (Rousing(s, p) ==> Rousing(t, p) || !Committed(t, t.init))
  {
    hide Inv, Target, Inner, HasWait, StateAt, Plain, HolderAt;
    Runs(s, c, p);
    var t := Shift(s, p, pc, pl, wl);
    assert forall i :: Committed(t, i) ==> Committed(s, i);
    if HasWait(pc) { HolderMoved(s, t, p, pc); }
  }

  lemma HolderMoved(s: State, t: State, p: nat, pc: Pc)
    requires |t.procs| == |s.procs| && t.init == s.init && p < |s.procs| && HolderAt(s, p, pc)
    requires forall i :: 0 <= i < |s.procs| ==> t.procs[i].parent == s.procs[i].parent && (t.procs[i].state.Zombie? <==> s.procs[i].state.Zombie?)
    requires forall i :: Committed(t, i) ==> Committed(s, i)
    ensures HolderAt(t, p, pc)
  {
    hide Committed;
  }

  lemma AtProc(s: State, p: nat)
    requires Inv(s) && p < |s.procs|
    ensures Sized(s)
    ensures MakeOk(s, p) && BoundsOk(s, p) && (HasWait(s.procs[p].pc) ==> HolderOk(s, p)) && ParentOk(s, p) && ProcOk(s, p) && PidOk(s, p)
  {
  }

  // ---------------------------------------------------------------- fork

  lemma ForkFull(s: State, c: nat, p: nat, k: nat)
    requires Inv(s) && Acts(s, c, p) && Sized(s) && s.procs[p].pc == ForkScan(k)
    ensures Inv(Shift(s, p, User, s.plock, s.wlock))
  {
    hide Inv, ProcOk, PidOk, ParentOk, Committed;
    AtProc(s, p);
    MoveInv(s, c, p, User, s.plock, s.wlock);
  }

  lemma ForkTry(s: State, c: nat, p: nat, k: nat)
    requires Inv(s) && Acts(s, c, p) && Sized(s) && s.procs[p].pc == ForkScan(k) && k < |s.procs| && s.plock[k].None?
    ensures Inv(Shift(s, p, ForkHave(k), s.plock[k := Some(c)], s.wlock))
  {
    hide Inv, ProcOk, PidOk, ParentOk, Committed;
    AtProc(s, p);
    MoveInv(s, c, p, ForkHave(k), s.plock[k := Some(c)], s.wlock);
  }

  lemma ForkSkip(s: State, c: nat, p: nat, k: nat)
    requires Inv(s) && Acts(s, c, p) && Sized(s) && s.procs[p].pc == ForkHave(k) && k < |s.procs|
    ensures Inv(Shift(s, p, ForkScan(k + 1), s.plock[k := None], s.wlock))
  {
    hide Inv, ProcOk, PidOk, ParentOk, Committed;
    AtProc(s, p);
    MoveInv(s, c, p, ForkScan(k + 1), s.plock[k := None], s.wlock);
  }

  lemma ForkFilled(s: State, c: nat, p: nat, k: nat)
    requires Inv(s) && Acts(s, c, p) && Sized(s) && s.procs[p].pc == ForkFill(k) && k < |s.procs|
    ensures Inv(Shift(s, p, ForkParent(k), s.plock[k := None], s.wlock))
  {
    hide Inv, ProcOk, PidOk, ParentOk, Committed;
    AtProc(s, p);
    MoveInv(s, c, p, ForkParent(k), s.plock[k := None], s.wlock);
  }

  lemma ForkTakeWait(s: State, c: nat, p: nat, k: nat)
    requires Inv(s) && Acts(s, c, p) && Sized(s) && s.procs[p].pc == ForkParent(k) && s.wlock.None?
    ensures Inv(Shift(s, p, ForkLink(k), s.plock, Some(c)))
  {
    hide Inv, ProcOk, PidOk, ParentOk, Committed;
    AtProc(s, p);
    MoveInv(s, c, p, ForkLink(k), s.plock, Some(c));
  }

  lemma ForkRelock(s: State, c: nat, p: nat, k: nat)
    requires Inv(s) && Acts(s, c, p) && Sized(s) && s.procs[p].pc == ForkReady(k) && k < |s.procs| && s.plock[k].None?
    ensures Inv(Shift(s, p, ForkRun(k), s.plock[k := Some(c)], s.wlock))
  {
    hide Inv, ProcOk, PidOk, ParentOk, Committed;
    AtProc(s, p);
    MoveInv(s, c, p, ForkRun(k), s.plock[k := Some(c)], s.wlock);
  }

  // ---------------------------------------------------------------- exit

  /** The thread on a CPU is not asleep, and its parent, if it is not init, exists. */
  lemma Alive(s: State, c: nat, p: nat)
    requires Inv(s) && Acts(s, c, p) && StateAt(s.procs[p].pc).Running?
    ensures s.procs[p].state.Running? && (p != s.init ==> s.procs[p].parent.Some? && s.procs[p].parent.value < |s.procs|)
    ensures !s.procs[p].pc.WaitSleep1? && !s.procs[p].pc.WaitSleep2? ==> !Committed(s, p)
  {
    hide Inv;
    Runs(s, c, p);
    AtProc(s, p);
  }

  lemma ExitTakeWait(s: State, c: nat, p: nat, st: int)
    requires Inv(s) && Acts(s, c, p) && Sized(s) && s.procs[p].pc == ExitStart(st) && s.wlock.None?
    ensures Inv(Shift(s, p, Reparent(0, st), s.plock, Some(c)))
  {
    hide Inv, ProcOk, PidOk, ParentOk, Committed;
    AtProc(s, p);
    MoveInv(s, c, p, Reparent(0, st), s.plock, Some(c));
  }

  lemma ReparentSkip(s: State, c: nat, p: nat, j: nat, st: int)
    requires Inv(s) && Acts(s, c, p) && Sized(s) && s.procs[p].pc == Reparent(j, st) && j < |s.procs| && s.procs[j].parent != Some(p)
    ensures Inv(Shift(s, p, Reparent(j + 1, st), s.plock, s.wlock))
  {
    hide Inv, ProcOk, PidOk, ParentOk, Committed;
    AtProc(s, p);
    MoveInv(s, c, p, Reparent(j + 1, st), s.plock, s.wlock);
  }

  lemma ReparentDone(s: State, c: nat, p: nat, j: nat, st: int)
    requires Inv(s) && Acts(s, c, p) && Sized(s) && s.procs[p].pc == Reparent(j, st) && j >= |s.procs|
    ensures Inv(Shift(s, p, Wake(ParentChan(s.procs[p]), 0, RetExit(st)), s.plock, s.wlock))
  {
    hide Inv, ProcOk, PidOk, ParentOk, Committed;
    AtProc(s, p);
    Alive(s, c, p);
    MoveInv(s, c, p, Wake(ParentChan(s.procs[p]), 0, RetExit(st)), s.plock, s.wlock);
  }

  lemma WakeDone(s: State, c: nat, p: nat, ch: Chan, k: nat, ret: Ret)
    requires Inv(s) && Acts(s, c, p) && Sized(s) && s.procs[p].pc == Wake(ch, k, ret) && k >= |s.procs|
    ensures Inv(Shift(s, p, Return(ret), s.plock, s.wlock))
  {
    hide Inv, ProcOk, PidOk, Committed;
    AtProc(s, p);
    Alive(s, c, p);
    MoveInv(s, c, p, Return(ret), s.plock, s.wlock);
  }

  lemma WakeSelf(s: State, c: nat, p: nat, ch: Chan, ret: Ret)
    requires Inv(s) && Acts(s, c, p) && Sized(s) && s.procs[p].pc == Wake(ch, p, ret)
    ensures Inv(Shift(s, p, Wake(ch, p + 1, ret), s.plock, s.wlock))
  {
    hide Inv, ProcOk, PidOk, ParentOk, Committed;
    AtProc(s, p);
    Alive(s, c, p);
    MoveInv(s, c, p, Wake(ch, p + 1, ret), s.plock, s.wlock);
  }

  lemma WakeTry(s: State, c: nat, p: nat, ch: Chan, k: nat, ret: Ret)
    requires Inv(s) && Acts(s, c, p) && Sized(s) && s.procs[p].pc == Wake(ch, k, ret) && k < |s.procs| && s.plock[k].None? && k != p
    ensures Inv(Shift(s, p, WakeHave(ch, k, ret), s.plock[k := Some(c)], s.wlock))
  {
    hide Inv, ProcOk, PidOk, ParentOk, Committed;
    AtProc(s, p);
    MoveInv(s, c, p, WakeHave(ch, k, ret), s.plock[k := Some(c)], s.wlock);
  }

  lemma ExitTakeOwn(s: State, c: nat, p: nat, st: int)
    requires Inv(s) && Acts(s, c, p) && Sized(s) && s.procs[p].pc == ExitLock(st) && s.plock[p].None?
    ensures Inv(Shift(s, p, ExitDie(st), s.plock[p := Some(c)], s.wlock))
  {
    hide Inv, ProcOk, PidOk, ParentOk, Committed;
    AtProc(s, p);
    MoveInv(s, c, p, ExitDie(st), s.plock[p := Some(c)], s.wlock);
  }

  lemma ExitDropWait(s: State, c: nat, p: nat)
    requires Inv(s) && Acts(s, c, p) && Sized(s) && s.procs[p].pc == ExitUnlock
    ensures Inv(Shift(s, p, ExitSched, s.plock, None))
  {
    hide Inv, ProcOk, PidOk, ParentOk, Committed;
    AtProc(s, p);
    MoveInv(s, c, p, ExitSched, s.plock, None);
  }

  // ---------------------------------------------------------------- wait

  lemma WaitTakeWait(s: State, c: nat, p: nat)
    requires Inv(s) && Acts(s, c, p) && Sized(s) && s.procs[p].pc == WaitStart && s.wlock.None?
    ensures Inv(Shift(s, p, WaitScan(0, false), s.plock, Some(c)))
  {
    hide Inv, ProcOk, PidOk, ParentOk, Committed;
    AtProc(s, p);
    MoveInv(s, c, p, WaitScan(0, false), s.plock, Some(c));
  }

  lemma WaitNext(s: State, c: nat, p: nat, k: nat, kids: bool)
    requires Inv(s) && Acts(s, c, p) && Sized(s) && s.procs[p].pc == WaitScan(k, kids) && k < |s.procs| && s.procs[k].parent != Some(p)
    ensures Inv(Shift(s, p, WaitScan(k + 1, kids), s.plock, s.wlock))
  {
    hide Inv, ProcOk, PidOk, ParentOk, Committed;
    AtProc(s, p);
    MoveInv(s, c, p, WaitScan(k + 1, kids), s.plock, s.wlock);
  }

  lemma WaitTry(s: State, c: nat, p: nat, k: nat, kids: bool)
    requires Inv(s) && Acts(s, c, p) && Sized(s) && s.procs[p].pc == WaitScan(k, kids) && k < |s.procs| && s.plock[k].None? && s.procs[k].parent == Some(p)
    ensures Inv(Shift(s, p, WaitHave(k, kids), s.plock[k := Some(c)], s.wlock))
  {
    hide Inv, ProcOk, PidOk, ParentOk, Committed;
    AtProc(s, p);
    MoveInv(s, c, p, WaitHave(k, kids), s.plock[k := Some(c)], s.wlock);
  }

  lemma WaitScanned(s: State, c: nat, p: nat, k: nat, kids: bool, pc: Pc)
    requires Inv(s) && Acts(s, c, p) && Sized(s) && s.procs[p].pc == WaitScan(k, kids) && k >= |s.procs| && (pc == WaitLeave || pc == WaitSleep0)
    ensures Inv(Shift(s, p, pc, s.plock, s.wlock))
  {
    hide Inv, ProcOk, PidOk, ParentOk, Committed;
    AtProc(s, p);
    MoveInv(s, c, p, pc, s.plock, s.wlock);
  }

  lemma WaitAlive(s: State, c: nat, p: nat, k: nat, kids: bool)
    requires Inv(s) && Acts(s, c, p) && Sized(s) && s.procs[p].pc == WaitHave(k, kids) && k < |s.procs| && !s.procs[k].state.Zombie?
    ensures Inv(Shift(s, p, WaitScan(k + 1, true), s.plock[k := None], s.wlock))
  {
    hide Inv, ProcOk, PidOk, ParentOk, Committed;
    AtProc(s, p);
    MoveInv(s, c, p, WaitScan(k + 1, true), s.plock[k := None], s.wlock);
  }

  lemma WaitCopyFails(s: State, c: nat, p: nat, k: nat, kids: bool)
    requires Inv(s) && Acts(s, c, p) && Sized(s) && s.procs[p].pc == WaitHave(k, kids) && k < |s.procs|
    ensures Inv(Shift(s, p, WaitLeave, s.plock[k := None], s.wlock))
  {
    hide Inv, ProcOk, PidOk, ParentOk, Committed;
    AtProc(s, p);
    MoveInv(s, c, p, WaitLeave, s.plock[k := None], s.wlock);
  }

  lemma WaitReturn(s: State, c: nat, p: nat)
    requires Inv(s) && Acts(s, c, p) && Sized(s) && s.procs[p].pc == WaitLeave
    ensures Inv(Shift(s, p, User, s.plock, None))
  {
    hide Inv, ProcOk, PidOk, ParentOk, Committed;
    AtProc(s, p);
    MoveInv(s, c, p, User, s.plock, None);
  }

  lemma WaitDropWait(s: State, c: nat, p: nat)
    requires Inv(s) && Acts(s, c, p) && Sized(s) && s.procs[p].pc == WaitSleep1
    ensures Inv(Shift(s, p, WaitSleep2, s.plock, None))
  {
    hide Inv, ProcOk, PidOk, ParentOk, Committed;
    AtProc(s, p);
    MoveInv(s, c, p, WaitSleep2, s.plock, None);
  }

  // ---------------------------------------------------------------- system-call entry, sleep, kill, yield

  lemma EnterKernel(s: State, c: nat, p: nat, a: Act)
    requires Inv(s) && Acts(s, c, p) && Sized(s) && s.procs[p].pc == User
    ensures Inv(Shift(s, p, Enter(s, p, a), s.plock, s.wlock))
  {
    hide Inv, ProcOk, PidOk, ParentOk, Committed;
    AtProc(s, p);
    MoveInv(s, c, p, Enter(s, p, a), s.plock, s.wlock);
  }

  lemma ForkReturns(s: State, c: nat, p: nat)
    requires Inv(s) && Acts(s, c, p) && Sized(s) && s.procs[p].pc == ForkRet
    ensures Inv(Shift(s, p, User, s.plock[p := None], s.wlock))
  {
    hide Inv, ProcOk, PidOk, ParentOk, Committed;
    AtProc(s, p);
    MoveInv(s, c, p, User, s.plock[p := None], s.wlock);
  }

  lemma SleepTakeOwn(s: State, c: nat, p: nat, m: nat)
    requires Inv(s) && Acts(s, c, p) && Sized(s) && s.procs[p].pc == Sleep0(m) && s.plock[p].None?
    ensures Inv(Shift(s, p, Sleep2(m), s.plock[p := Some(c)], s.wlock))
  {
    hide Inv, ProcOk, PidOk, ParentOk, Committed;
    AtProc(s, p);
    MoveInv(s, c, p, Sleep2(m), s.plock[p := Some(c)], s.wlock);
  }

  lemma KillEnd(s: State, c: nat, p: nat, pid: nat, k: nat)
    requires Inv(s) && Acts(s, c, p) && Sized(s) && s.procs[p].pc == KillScan(pid, k)
    ensures Inv(Shift(s, p, User, s.plock, s.wlock))
  {
    hide Inv, ProcOk, PidOk, ParentOk, Committed;
    AtProc(s, p);
    MoveInv(s, c, p, User, s.plock, s.wlock);
  }

  lemma KillTry(s: State, c: nat, p: nat, pid: nat, k: nat)
    requires Inv(s) && Acts(s, c, p) && Sized(s) && s.procs[p].pc == KillScan(pid, k) && k < |s.procs| && s.plock[k].None?
    ensures Inv(Shift(s, p, KillHave(pid, k), s.plock[k := Some(c)], s.wlock))
  {
    hide Inv, ProcOk, PidOk, ParentOk, Committed;
    AtProc(s, p);
    MoveInv(s, c, p, KillHave(pid, k), s.plock[k := Some(c)], s.wlock);
  }

  lemma KillSkip(s: State, c: nat, p: nat, pid: nat, k: nat)
    requires Inv(s) && Acts(s, c, p) && Sized(s) && s.procs[p].pc == KillHave(pid, k) && k < |s.procs|
    ensures Inv(Shift(s, p, KillScan(pid, k + 1), s.plock[k := None], s.wlock))
  {
    hide Inv, ProcOk, PidOk, ParentOk, Committed;
    AtProc(s, p);
    MoveInv(s, c, p, KillScan(pid, k + 1), s.plock[k := None], s.wlock);
  }

  lemma YieldTakeOwn(s: State, c: nat, p: nat, b: Pc)
    requires Inv(s) && Acts(s, c, p) && Sized(s) && s.procs[p].pc == Yield0(b) && s.plock[p].None?
    ensures Inv(Shift(s, p, Yield1(b), s.plock[p := Some(c)], s.wlock))
  {
    hide Inv, ProcOk, PidOk, ParentOk, Committed;
    AtProc(s, p);
    MoveInv(s, c, p, Yield1(b), s.plock[p := Some(c)], s.wlock);
  }

  lemma YieldReturns(s: State, c: nat, p: nat, b: Pc)
    requires Inv(s) && Acts(s, c, p) && Sized(s) && s.procs[p].pc == YieldBack(b)
    ensures Inv(Shift(s, p, b, s.plock[p := None], s.wlock))
  {
    hide Inv, ProcOk, PidOk, ParentOk, Committed;
    AtProc(s, p);
    MoveInv(s, c, p, b, s.plock[p := None], s.wlock);
  }

  lemma Interrupted(s: State, c: nat, p: nat, pc: Pc)
    requires Inv(s) && Acts(s, c, p) && Sized(s) && s.procs[p].pc == pc && Plain(pc)
    ensures Inv(Shift(s, p, Yield0(pc), s.plock, s.wlock))
  {
    hide Inv, ProcOk, PidOk, ParentOk, Committed;
    AtProc(s, p);
    MoveInv(s, c, p, Yield0(pc), s.plock, s.wlock);
  }

  // ---------------------------------------------------------------- steps that change the table

  lemma Assemble(t: State)
    requires Sized(t) && CpusOk(t) && ProcsOk(t) && LocksOk(t) && ParentsOk(t) && MakersOk(t) && WaitsOk(t) && PidsOk(t)
    ensures Inv(t)
  {
  }

  /** What a step that leaves parents, zombies and histories alone has to show. */
  lemma ChangeInv(s: State, t: State, c: nat, p: nat, k: nat)
    requires Inv(s) && Acts(s, c, p) && Only(s, t, p, k) && t.cpus == s.cpus && LocksMoved(s, t, c, p)
    requires t.nextpid == s.nextpid && t.exits == s.exits && t.reaps == s.reaps
    requires t.procs[p].where == s.procs[p].where && t.procs[k].where == s.procs[k].where
    requires k == p || t.procs[k].pc == s.procs[k].pc
    requires ProcOk(t, p) && BoundsOk(t, p) && ProcOk(t, k) && BoundsOk(t, k)
    requires MakeOk(t, p) && (Target(t.procs[p].pc) == -1 || Target(t.procs[p].pc) == Target(s.procs[p].pc)) && Live(t.procs[p].state)
    requires forall q :: q == p || q == k ==>
      && t.procs[q].parent == s.procs[q].parent && t.procs[q].pid == s.procs[q].pid && t.procs[q].xstate == s.procs[q].xstate
      && (t.procs[q].state == s.procs[q].state || (Live(s.procs[q].state) && Live(t.procs[q].state)))
    requires HasWait(t.procs[p].pc) ==> HolderOk(t, p)
    requires forall i :: i == p || i == k ==> (Committed(t, i) ==> Committed(s, i))
    requires Rousing(s, p) ==> Rousing(t, p) || !Committed(t, t.init)
    ensures Inv(t)
  {
    hide HeldAt, HasWait, StateAt, Target, MakersOk, WaitsOk, PidsOk, ParentsOk, Resumes, Plain, Inner, HolderAt, RousingAt, BoundsAt, MakeAt, ProcOk, CpusOk, ProcsOk, LocksOk, LocksMoved;
    StructureKept(s, t, c, p, k);
    ParentsKept(s, t);
    PidsKept(s, t);
    Runs(s, c, p);
    forall q | 0 <= q < |s.procs| && s.procs[q].state.Used? ensures SameEntry(s.procs[q], t.procs[q], p) { }
    MakersKept(s, t, p);
    assert forall i :: Committed(t, i) ==> Committed(s, i);
    WaitsKept(s, t, p);
  }

  /** A sleeper whose lock c holds may become runnable. */
  ghost predicate Roused(x: Proc, y: Proc) {
    y == x.(state := y.state, killed := y.killed) && (y.state == x.state || (x.state.Sleeping? && y.state.Runnable?))
  }

  lemma RousedEntry(s: State, t: State, c: nat, p: nat, k: nat)
    requires Inv(s) && Acts(s, c, p) && k < |s.procs| && k != p && s.plock[k] == Some(c)
    requires |t.procs| == |s.procs| && t.cpus == s.cpus && t.init == s.init && Roused(s.procs[k], t.procs[k])
    ensures ProcOk(t, k) && BoundsOk(t, k) && (Committed(t, k) ==> Committed(s, k))
    ensures t.procs[k].state == s.procs[k].state || (Live(s.procs[k].state) && Live(t.procs[k].state))
  {
    hide Inv, HeldAt;
    AtProc(s, k);
    LockedAway(s, c, p, k);
  }

  lemma NotCommitted(s: State, t: State, c: nat, p: nat, k: nat)
    requires Inv(s) && Acts(s, c, p) && k < |s.procs| && k != p && s.plock[k] == Some(c)
    requires |t.procs| == |s.procs| && t.procs[k] == Woken(s.procs[k], OfProc(k))
    ensures !Committed(t, k)
  {
    hide Inv, HeldAt;
    LockedAway(s, c, p, k);
  }

  /** wakeup at entry k: whoever sleeps on the channel is runnable, and after its own entry nobody
      sleeps on it or is about to. */
  lemma WakeInv(s: State, c: nat, p: nat, ch: Chan, k: nat, ret: Ret)
    requires Inv(s) && Acts(s, c, p) && Sized(s) && s.procs[p].pc == WakeHave(ch, k, ret) && k < |s.procs|
    ensures Inv(At(UnlockP(Put(s, k, Woken(s.procs[k], ch)), k), p, Wake(ch, k + 1, ret)))
  {
    hide Inv, PidOk, ParentOk, Committed, RetOk, Resumes, LocksMoved, ProcOk, StateAt, MakeAt, HolderAt;
    AtProc(s, p);
    Runs(s, c, p);
    var t := At(UnlockP(Put(s, k, Woken(s.procs[k], ch)), k), p, Wake(ch, k + 1, ret));
    LocksByOne(s, t, c, p);
    SelfPlaced(s, t, c, p);
    HolderRet(s, p, ch, k, ret);
    RousedEntry(s, t, c, p, k);
    if ch == OfProc(k) { NotCommitted(s, t, c, p, k); }
    CommittedOnly(s, t, p, k);
    WakeHolder(s, t, p, ch, k, ret);
    assert BoundsOk(t, p);
    WakeRouses(s, t, p, ch, k, ret);
    NextHolder(t, p, ch, k + 1, ret);
    hide BoundsAt, HeldAt, RousingAt;
    ChangeInv(s, t, c, p, k);
  }

  lemma WakeRouses(s: State, t: State, p: nat, ch: Chan, k: nat, ret: Ret)
    requires p < |s.procs| && |t.procs| == |s.procs| && t.init == s.init && s.procs[p].pc == WakeHave(ch, k, ret) && t.procs[p].pc == Wake(ch, k + 1, ret)
    requires RetOk(s, p, ch, k, ret) && (ch == OfProc(k) ==> !Committed(t, k))
    ensures Rousing(s, p) ==> Rousing(t, p) || !Committed(t, t.init)
  {
    hide Committed, Childless;
  }

  lemma CommittedOnly(s: State, t: State, p: nat, k: nat)
    requires Only(s, t, p, k) && (Committed(t, k) ==> Committed(s, k)) && !t.procs[p].state.Sleeping? && !t.procs[p].pc.WaitSleep1? && !t.procs[p].pc.WaitSleep2?
    ensures forall i :: Committed(t, i) ==> Committed(s, i)
  {
  }

  lemma WakeHolder(s: State, t: State, p: nat, ch: Chan, k: nat, ret: Ret)
    requires p < |s.procs| && |t.procs| == |s.procs| && RetOk(s, p, ch, k, ret) && t.init == s.init && (ch == OfProc(k) ==> !Committed(t, k))
    requires forall i :: Committed(t, i) ==> Committed(s, i)
    requires forall i :: 0 <= i < |s.procs| ==> t.procs[i].parent == s.procs[i].parent
    ensures RetOk(t, p, ch, k + 1, ret)
  {
    hide Committed;
  }

  lemma KillInv(s: State, c: nat, p: nat, pid: nat, k: nat)
    requires Inv(s) && Acts(s, c, p) && Sized(s) && s.procs[p].pc == KillHave(pid, k) && k < |s.procs|
    ensures Inv(At(UnlockP(Put(s, k, Killed(s.procs[k])), k), p, User))
  {
    hide Inv, PidOk, ParentOk, Committed, RetOk, Resumes, LocksMoved, ProcOk, StateAt, MakeAt, HolderAt;
    AtProc(s, p);
    Runs(s, c, p);
    var t := At(UnlockP(Put(s, k, Killed(s.procs[k])), k), p, User);
    LocksByOne(s, t, c, p);
    SelfPlaced(s, t, c, p);
    if k != p { RousedEntry(s, t, c, p, k); }
    assert BoundsOk(t, p) && !Rousing(s, p);
    NotAsleep(t, p);
    hide BoundsAt, HeldAt, RousingAt;
    ChangeInv(s, t, c, p, k);
  }

  /** The thread moved to a place of a running thread that is not in fork. */
  lemma SelfPlaced(s: State, t: State, c: nat, p: nat)
    requires Inv(s) && Acts(s, c, p) && |t.procs| == |s.procs| && t.cpus == s.cpus
    requires s.procs[p].pc.WakeHave? || s.procs[p].pc.KillHave?
    requires t.procs[p].pc.Wake? || t.procs[p].pc.User?
    requires t.procs[p] == s.procs[p].(pc := t.procs[p].pc, killed := t.procs[p].killed)
    ensures ProcOk(t, p) && MakeOk(t, p) && s.procs[p].state.Running? && Target(t.procs[p].pc) == -1
  {
    hide Inv;
    AtProc(s, p);
    Runs(s, c, p);
  }

  lemma HolderRet(s: State, p: nat, ch: Chan, k: nat, ret: Ret)
    requires Inv(s) && p < |s.procs| && s.procs[p].pc == WakeHave(ch, k, ret)
    ensures RetOk(s, p, ch, k, ret) && k != p
  {
    hide Inv;
    AtProc(s, p);
  }

  lemma NextHolder(t: State, p: nat, ch: Chan, k: nat, ret: Ret)
    requires p < |t.procs| && t.procs[p].pc == Wake(ch, k, ret) && RetOk(t, p, ch, k, ret)
    ensures HolderOk(t, p)
  {
  }

  lemma NotAsleep(t: State, p: nat)
    requires p < |t.procs| && t.procs[p].pc.User? && !t.procs[p].state.Sleeping?
    ensures !Committed(t, p)
  {
  }

  /** The thread of p changes its own state, channel and place. */
  lemma SelfInv(s: State, c: nat, p: nat, x: Proc, pl: seq<Option<nat>>)
    requires Inv(s) && Acts(s, c, p) && Sized(s) && |pl| == |s.plock|
    requires x == s.procs[p].(state := x.state, chan := x.chan, pc := x.pc) && x.state == StateAt(x.pc) && Live(x.state)
    requires Live(s.procs[p].state) && !HasWait(x.pc) && !RousingAt(s, s.procs[p].pc)
    requires MakeAt(s, p, x.pc) && (Target(x.pc) == -1 || Target(x.pc) == Target(s.procs[p].pc))
    requires BoundsAt(s, p, x.pc) && !x.pc.Gone? && !x.pc.WaitSleep1? && !x.pc.WaitSleep2?
    requires x.state.Sleeping? ==> x.pc.SleepSched? && if x.pc.inWait then x.chan == OfProc(p) && s.procs[p].pc.WaitSleep2? else x.chan.Other?
    requires OneLock(s, c, p, x.pc, pl, s.wlock)
    ensures Inv(Put(s, p, x).(plock := pl))
  {
    hide Inv, HeldAt, HasWait, PidOk, Target, BoundsAt, OneLock;
    AtProc(s, p);
    Runs(s, c, p);
    var t := Put(s, p, x).(plock := pl);
    LocksByOne(s, t, c, p);
    BoundsSame(s, t, p);
    assert MakeOk(t, p);
    ChangeInv(s, t, c, p, p);
  }

  lemma BoundsSame(s: State, t: State, p: nat)
    requires p < |s.procs| && |t.procs| == |s.procs| && t.init == s.init && BoundsAt(s, p, t.procs[p].pc)
    ensures BoundsOk(t, p)
  {
  }

  lemma WaitSleeps(s: State, c: nat, p: nat)
    requires Inv(s) && Acts(s, c, p) && Sized(s) && s.procs[p].pc == WaitSleep2
    ensures Inv(Put(s, p, s.procs[p].(chan := OfProc(p), state := Sleeping, pc := SleepSched(true))))
  {
    hide Inv, ProcOk, PidOk, ParentOk, Committed;
    AtProc(s, p);
    Runs(s, c, p);
    SelfInv(s, c, p, s.procs[p].(chan := OfProc(p), state := Sleeping, pc := SleepSched(true)), s.plock);
  }

  lemma Sleeps(s: State, c: nat, p: nat, m: nat)
    requires Inv(s) && Acts(s, c, p) && Sized(s) && s.procs[p].pc == Sleep2(m)
    ensures Inv(Put(s, p, s.procs[p].(chan := Other(m), state := Sleeping, pc := SleepSched(false))))
  {
    hide Inv, ProcOk, PidOk, ParentOk, Committed;
    AtProc(s, p);
    Runs(s, c, p);
    SelfInv(s, c, p, s.procs[p].(chan := Other(m), state := Sleeping, pc := SleepSched(false)), s.plock);
  }

  lemma SleepReturns(s: State, c: nat, p: nat, w: bool)
    requires Inv(s) && Acts(s, c, p) && Sized(s) && s.procs[p].pc == SleepBack(w)
    ensures Inv(Put(s, p, s.procs[p].(chan := NoChan, pc := if w then WaitStart else User)).(plock := s.plock[p := None]))
  {
    hide Inv, ProcOk, PidOk, ParentOk, Committed;
    AtProc(s, p);
    Runs(s, c, p);
    SelfInv(s, c, p, s.procs[p].(chan := NoChan, pc := if w then WaitStart else User), s.plock[p := None]);
  }

  lemma Yields(s: State, c: nat, p: nat, b: Pc)
    requires Inv(s) && Acts(s, c, p) && Sized(s) && s.procs[p].pc == Yield1(b)
    ensures Inv(Put(s, p, s.procs[p].(state := Runnable, pc := Yield2(b))))
  {
    hide Inv, ProcOk, PidOk, ParentOk, Committed;
    AtProc(s, p);
    Runs(s, c, p);
    SelfInv(s, c, p, s.procs[p].(state := Runnable, pc := Yield2(b)), s.plock);
  }

  // ---------------------------------------------------------------- fork: the new entry

  lemma FreeEntry(s: State, k: nat)
    requires Inv(s) && k < |s.procs| && (s.procs[k].state.Unused? || s.procs[k].state.Used?)
    ensures s.procs[k].where.None? && !HasWait(s.procs[k].pc) && Target(s.procs[k].pc) == -1 && k != s.init && !Committed(s, k)
    ensures (s.procs[k].pc.ForkRet? || s.procs[k].pc.Gone?) && (s.procs[k].state.Unused? ==> s.procs[k].parent.None?)
  {
    hide Inv;
    AtProc(s, k);
  }

  lemma AllocInv(s: State, c: nat, p: nat, k: nat)
    requires Inv(s) && Acts(s, c, p) && Sized(s) && s.procs[p].pc == ForkHave(k) && k < |s.procs| && s.procs[k].state.Unused?
    ensures Inv(At(Put(s, k, s.procs[k].(pid := s.nextpid, state := Used, pc := ForkRet)).(nextpid := s.nextpid + 1), p, ForkFill(k)))
  {
    hide Inv, PidOk, ParentOk, Resumes, LocksMoved;
    var t := At(Put(s, k, s.procs[k].(pid := s.nextpid, state := Used, pc := ForkRet)).(nextpid := s.nextpid + 1), p, ForkFill(k));
    AtProc(s, p);
    FreeEntry(s, k);
    Runs(s, c, p);
    LocksByOne(s, t, c, p);
    assert ProcOk(t, p) && BoundsOk(t, p) && ProcOk(t, k) && BoundsOk(t, k) && MakeOk(t, p);
    hide ProcOk, BoundsAt, HeldAt, MakeAt;
    StructureKept(s, t, c, p, k);
    AllocRest(s, t, p, k);
    Assemble(t);
  }

  lemma AllocRest(s: State, t: State, p: nat, k: nat)
    requires Inv(s) && Only(s, t, p, k) && k != p && s.procs[p].pc == ForkHave(k) && s.procs[k].state.Unused? && MakeOk(t, p)
    requires Live(s.procs[p].state) && t.exits == s.exits && t.reaps == s.reaps && t.nextpid == s.nextpid + 1
    requires t.procs[p] == s.procs[p].(pc := ForkFill(k)) && t.procs[k] == s.procs[k].(pid := s.nextpid, state := Used, pc := ForkRet)
    ensures ParentsOk(t) && MakersOk(t) && WaitsOk(t) && PidsOk(t)
  {
    hide CpusOk, ProcsOk, LocksOk, MakersOk, WaitsOk, PidsOk, ParentsOk, MakeAt, HolderAt;
    FreeEntry(s, k);
    ParentsKept(s, t);
    MakersKept(s, t, p);
    assert forall i :: Committed(t, i) ==> Committed(s, i);
    WaitsKept(s, t, p);
    AllocPids(s, t, p, k);
  }

  lemma AllocPids(s: State, t: State, p: nat, k: nat)
    requires PidsOk(s) && Only(s, t, p, k) && t.exits == s.exits && t.reaps == s.reaps && t.nextpid == s.nextpid + 1 && k != p
    requires t.procs[p] == s.procs[p].(pc := t.procs[p].pc) && t.procs[k].pid == s.nextpid && t.procs[k].state.Used? && s.procs[k].state.Unused?
    ensures PidsOk(t)
  {
    forall i | 0 <= i < |t.exits| ensures Kept(t, t.exits[i]) { assert Kept(s, s.exits[i]); KeptStays(s, t, s.exits[i]); }
    forall j | 0 <= j < |t.procs| ensures PidOk(t, j) {
      assert PidOk(s, j);
    }
    forall i, j | 0 <= i < j < |t.procs| && !t.procs[i].state.Unused? && !t.procs[j].state.Unused? ensures t.procs[i].pid != t.procs[j].pid {
      assert PidOk(s, i) && PidOk(s, j);
    }
  }

  lemma FillFails(s: State, c: nat, p: nat, k: nat)
    requires Inv(s) && Acts(s, c, p) && Sized(s) && s.procs[p].pc == ForkFill(k) && k < |s.procs|
    ensures Inv(At(UnlockP(Put(s, k, Freed(s.procs[k])), k), p, User))
  {
    hide Inv, PidOk, ParentOk, Resumes, LocksMoved;
    var t := At(UnlockP(Put(s, k, Freed(s.procs[k])), k), p, User);
    AtProc(s, p);
    AtProc(s, k);
    Runs(s, c, p);
    LocksByOne(s, t, c, p);
    assert ProcOk(t, p) && BoundsOk(t, p) && ProcOk(t, k) && BoundsOk(t, k) && MakeOk(t, p);
    FreeEntry(s, k);
    hide ProcOk, BoundsAt, HeldAt;
    StructureKept(s, t, c, p, k);
    EntryRest(s, t, p, k);
    Assemble(t);
  }

  /** The entry that p was filling becomes free or runnable. */
  lemma EntryRest(s: State, t: State, p: nat, k: nat)
    requires Inv(s) && Only(s, t, p, k) && k != p && Target(s.procs[p].pc) == k && MakeOk(s, p) && s.procs[k].parent == t.procs[k].parent
    requires Live(s.procs[p].state) && t.exits == s.exits && t.reaps == s.reaps && t.nextpid == s.nextpid
    requires t.procs[p] == s.procs[p].(pc := User) && t.procs[k].pc == s.procs[k].pc && !HasWait(s.procs[p].pc)
    requires (t.procs[k].state.Unused? && t.procs[k].parent.None?) || (t.procs[k].state.Runnable? && t.procs[k].parent.Some? && t.procs[k].pid == s.procs[k].pid)
    ensures ParentsOk(t) && MakersOk(t) && WaitsOk(t) && PidsOk(t)
  {
    hide CpusOk, ProcsOk, LocksOk, MakersOk, WaitsOk, PidsOk, HolderAt;
    FreeEntry(s, k);
    forall q | 0 <= q < |t.procs| ensures ParentOk(t, q) { assert ParentOk(s, q); }
    MakersKept(s, t, p);
    hide MakeAt, ParentsOk;
    assert forall i :: Committed(t, i) ==> Committed(s, i);
    WaitsKept(s, t, p);
    EntryPids(s, t, p, k);
  }

  lemma EntryPids(s: State, t: State, p: nat, k: nat)
    requires PidsOk(s) && Only(s, t, p, k) && t.exits == s.exits && t.reaps == s.reaps && t.nextpid == s.nextpid
    requires t.procs[p] == s.procs[p].(pc := t.procs[p].pc) && s.procs[k].state.Used? && k != p
    requires t.procs[k].state.Unused? || (t.procs[k].state.Runnable? && t.procs[k].pid == s.procs[k].pid)
    ensures PidsOk(t)
  {
    forall i | 0 <= i < |t.exits| ensures Kept(t, t.exits[i]) { assert Kept(s, s.exits[i]); KeptStays(s, t, s.exits[i]); }
    forall j | 0 <= j < |t.procs| ensures PidOk(t, j) { assert PidOk(s, j); }
  }

  lemma ForkRuns(s: State, c: nat, p: nat, k: nat)
    requires Inv(s) && Acts(s, c, p) && Sized(s) && s.procs[p].pc == ForkRun(k) && k < |s.procs|
    ensures Inv(At(UnlockP(Put(s, k, s.procs[k].(state := Runnable)), k), p, User))
  {
    hide Inv, PidOk, ParentOk, LocksMoved;
    var t := At(UnlockP(Put(s, k, s.procs[k].(state := Runnable)), k), p, User);
    AtProc(s, p);
    AtProc(s, k);
    Runs(s, c, p);
    LocksByOne(s, t, c, p);
    assert ProcOk(t, p) && BoundsOk(t, p) && ProcOk(t, k) && BoundsOk(t, k);
    hide ProcOk, BoundsAt, HeldAt;
    StructureKept(s, t, c, p, k);
    EntryRest(s, t, p, k);
    Assemble(t);
  }

  lemma ForkLinks(s: State, c: nat, p: nat, k: nat)
    requires Inv(s) && Acts(s, c, p) && Sized(s) && s.procs[p].pc == ForkLink(k) && k < |s.procs|
    ensures Inv(At(Put(s, k, s.procs[k].(parent := Some(p))).(wlock := None), p, ForkReady(k)))
  {
    hide Inv, PidOk, ParentOk, LocksMoved;
    var t := At(Put(s, k, s.procs[k].(parent := Some(p))).(wlock := None), p, ForkReady(k));
    AtProc(s, p);
    AtProc(s, k);
    Runs(s, c, p);
    LocksByOne(s, t, c, p);
    assert ProcOk(t, p) && BoundsOk(t, p) && ProcOk(t, k) && BoundsOk(t, k) && MakeOk(t, p);
    hide ProcOk, BoundsAt, HeldAt;
    StructureKept(s, t, c, p, k);
    LinkRest(s, t, p, k);
    Assemble(t);
  }

  lemma LinkRest(s: State, t: State, p: nat, k: nat)
    requires Inv(s) && Only(s, t, p, k) && k != p && s.procs[p].pc == ForkLink(k) && MakeOk(s, p) && MakeOk(t, p)
    requires s.procs[p].state.Running? && t.exits == s.exits && t.reaps == s.reaps && t.nextpid == s.nextpid
    requires t.procs[p] == s.procs[p].(pc := ForkReady(k)) && t.procs[k] == s.procs[k].(parent := Some(p))
    ensures ParentsOk(t) && MakersOk(t) && WaitsOk(t) && PidsOk(t)
  {
    hide CpusOk, ProcsOk, LocksOk, MakersOk, PidsOk, HolderAt;
    forall q | 0 <= q < |t.procs| ensures ParentOk(t, q) { assert ParentOk(s, q); }
    MakersKept(s, t, p);
    PidsKept(s, t);
    forall q | Committed(t, q) && HasZombie(t, q) ensures false {
      assert Committed(s, q) && HasZombie(s, q);
      RousesAlone(s, p, q);
    }
    WaitsByHolder(s, t, p);
  }

  /** If the holder of wait_lock is not in reparent, nobody asleep in wait has a zombie child. */
  lemma RousesAlone(s: State, p: nat, q: nat)
    requires Inv(s) && p < |s.procs| && HasWait(s.procs[p].pc) && Committed(s, q) && HasZombie(s, q)
    ensures q == s.init && Rousing(s, p)
  {
    hide MakersOk, PidsOk, ParentsOk, HolderAt, Committed, HasZombie, ProcsOk, CpusOk, LocksOk;
    var r :| 0 <= r < |s.procs| && Rousing(s, r);
    assert HasWait(s.procs[r].pc);
    WaitUnique(s, p, r);
  }

  // ---------------------------------------------------------------- exit: reparent and die

  lemma ReparentInv(s: State, c: nat, p: nat, j: nat, st: int)
    requires Inv(s) && Acts(s, c, p) && Sized(s) && s.procs[p].pc == Reparent(j, st) && j < |s.procs| && s.procs[j].parent == Some(p)
    ensures Inv(At(Put(s, j, s.procs[j].(parent := Some(s.init))), p, Wake(OfProc(s.init), 0, RetReparent(j, st))))
  {
    hide Inv, PidOk, ParentOk, LocksMoved, Committed, Resumes;
    var t := At(Put(s, j, s.procs[j].(parent := Some(s.init))), p, Wake(OfProc(s.init), 0, RetReparent(j, st)));
    AtProc(s, p);
    AtProc(s, j);
    Runs(s, c, p);
    LocksByOne(s, t, c, p);
    assert ProcOk(t, p) && BoundsOk(t, p) && ProcOk(t, j) && BoundsOk(t, j);
    hide ProcOk, BoundsAt, HeldAt;
    StructureKept(s, t, c, p, j);
    ReparentRest(s, t, p, j, st);
    Assemble(t);
  }

  lemma ReparentRest(s: State, t: State, p: nat, j: nat, st: int)
    requires Inv(s) && Only(s, t, p, j) && s.procs[p].pc == Reparent(j, st) && HolderOk(s, p) && p != s.init && s.procs[j].parent == Some(p)
    requires s.procs[p].state.Running? && t.exits == s.exits && t.reaps == s.reaps && t.nextpid == s.nextpid
    requires t.procs[j].parent == Some(s.init) && t.procs[p].pc == Wake(OfProc(s.init), 0, RetReparent(j, st))
    requires forall q :: q == p || q == j ==> t.procs[q] == s.procs[q].(parent := t.procs[q].parent, pc := t.procs[q].pc)
    requires j != p ==> t.procs[j].pc == s.procs[j].pc && t.procs[p].parent == s.procs[p].parent
    ensures ParentsOk(t) && MakersOk(t) && WaitsOk(t) && PidsOk(t)
  {
    hide CpusOk, ProcsOk, LocksOk, MakersOk, PidsOk, WaitsOk;
    forall q | 0 <= q < |t.procs| ensures ParentOk(t, q) { assert ParentOk(s, q) && ParentOk(s, s.init); }
    assert MakeOk(t, p);
    hide MakeAt, ParentsOk;
    MakersKept(s, t, p);
    PidsKept(s, t);
    forall q | Committed(t, q) && HasZombie(t, q) ensures q == t.init && Rousing(t, p) {
      if q != t.init {
        assert Committed(s, q) && HasZombie(s, q);
        RousesAlone(s, p, q);
      }
    }
    assert HolderOk(t, p);
    WaitsByHolder(s, t, p);
  }

  lemma DieInv(s: State, c: nat, p: nat, st: int)
    requires Inv(s) && Acts(s, c, p) && Sized(s) && s.procs[p].pc == ExitDie(st)
    ensures Inv(Put(s, p, s.procs[p].(xstate := st, state := Zombie, pc := ExitUnlock)).(exits := s.exits + [Exit(s.procs[p].pid, st)]))
  {
    hide Inv, PidOk, ParentOk, LocksMoved, Committed, Resumes;
    var t := Put(s, p, s.procs[p].(xstate := st, state := Zombie, pc := ExitUnlock)).(exits := s.exits + [Exit(s.procs[p].pid, st)]);
    AtProc(s, p);
    Runs(s, c, p);
    LocksByOne(s, t, c, p);
    assert ProcOk(t, p) && BoundsOk(t, p);
    hide ProcOk, BoundsAt, HeldAt;
    StructureKept(s, t, c, p, p);
    DieRest(s, t, p, st);
    Assemble(t);
  }

  lemma DieRest(s: State, t: State, p: nat, st: int)
    requires Inv(s) && Only(s, t, p, p) && s.procs[p].pc == ExitDie(st) && HolderOk(s, p) && p != s.init
    requires s.procs[p].state.Running? && t.exits == s.exits + [Exit(s.procs[p].pid, st)] && t.reaps == s.reaps && t.nextpid == s.nextpid
    requires t.procs[p] == s.procs[p].(xstate := st, state := Zombie, pc := ExitUnlock)
    ensures ParentsOk(t) && MakersOk(t) && WaitsOk(t) && PidsOk(t)
  {
    hide CpusOk, ProcsOk, LocksOk, MakersOk, PidsOk, WaitsOk;
    forall q | 0 <= q < |t.procs| ensures ParentOk(t, q) { assert ParentOk(s, q); }
    assert MakeOk(t, p);
    hide MakeAt, ParentsOk;
    MakersKept(s, t, p);
    forall q | Committed(t, q) && HasZombie(t, q) ensures false {
      assert Committed(s, q);
      assert q >= 0 && s.procs[p].parent.Some? ==> s.procs[p].parent.value != q;
      assert HasZombie(s, q);
      RousesAlone(s, p, q);
    }
    WaitsByHolder(s, t, p);
    DiePids(s, t, p, st);
  }

  lemma DiePids(s: State, t: State, p: nat, st: int)
    requires PidsOk(s) && Only(s, t, p, p) && Live(s.procs[p].state) && t.nextpid == s.nextpid
    requires t.exits == s.exits + [Exit(s.procs[p].pid, st)] && t.reaps == s.reaps
    requires t.procs[p] == s.procs[p].(xstate := st, state := Zombie, pc := t.procs[p].pc)
    ensures PidsOk(t)
  {
    assert PidOk(s, p);
    forall i | 0 <= i < |s.reaps| ensures s.reaps[i].pid != s.procs[p].pid && Exit(s.reaps[i].pid, s.reaps[i].status) in t.exits {
      ExitIn(s, s.reaps[i].pid, s.reaps[i].status);
    }
    assert t.exits[|s.exits|] == Exit(s.procs[p].pid, st);
    forall j | 0 <= j < |t.procs| ensures PidOk(t, j) {
      assert PidOk(s, j);
      if j != p && !s.procs[j].state.Zombie? && !s.procs[j].state.Unused? {
        forall i | 0 <= i < |t.exits| ensures t.exits[i].pid != t.procs[j].pid {
          assert i < |s.exits| ==> t.exits[i] == s.exits[i];
        }
      }
    }
    forall i | 0 <= i < |t.exits| ensures Kept(t, t.exits[i]) {
      if i < |s.exits| { assert Kept(s, s.exits[i]) && t.exits[i] == s.exits[i]; KeptStays(s, t, s.exits[i]); }
    }
    forall i, j | 0 <= i < j < |t.exits| ensures t.exits[i].pid != t.exits[j].pid { assert t.exits[i] == s.exits[i]; }
  }

  lemma ExitIn(s: State, pid: nat, st: int)
    requires Exit(pid, st) in s.exits
    ensures Exited(s, pid)
  {
  }

  // ---------------------------------------------------------------- wait: collect and commit

  lemma ReapPlaced(s: State, t: State, c: nat, p: nat, k: nat, kids: bool)
    requires Inv(s) && Acts(s, c, p) && Sized(s) && s.procs[p].pc == WaitHave(k, kids) && k < |s.procs| && s.procs[k].state.Zombie?
    requires |t.procs| == |s.procs| && t.cpus == s.cpus && t.init == s.init
    requires t.procs[p] == s.procs[p].(pc := WaitLeave) && t.procs[k] == Freed(s.procs[k])
    ensures ProcOk(t, p) && BoundsOk(t, p) && ProcOk(t, k) && BoundsOk(t, k) && k != p && s.procs[k].pc.Gone? && s.procs[p].state.Running?
    ensures s.plock[k] == Some(c)
  {
    hide Inv, PidOk, ParentOk, Committed;
    AtProc(s, p);
    AtProc(s, k);
    Runs(s, c, p);
    LockedAway(s, c, p, k);
  }

  lemma ReapInv(s: State, c: nat, p: nat, k: nat, kids: bool)
    requires Inv(s) && Acts(s, c, p) && Sized(s) && s.procs[p].pc == WaitHave(k, kids) && k < |s.procs| && s.procs[k].state.Zombie?
    ensures Inv(At(UnlockP(Put(s, k, Freed(s.procs[k])), k), p, WaitLeave).(reaps := s.reaps + [Reap(p, s.procs[k].pid, s.procs[k].xstate)]))
  {
    hide Inv, LocksMoved, ProcOk, BoundsAt;
    var t := At(UnlockP(Put(s, k, Freed(s.procs[k])), k), p, WaitLeave).(reaps := s.reaps + [Reap(p, s.procs[k].pid, s.procs[k].xstate)]);
    Runs(s, c, p);
    LocksByOne(s, t, c, p);
    hide HeldAt, HasWait;
    ReapPlaced(s, t, c, p, k, kids);
    StructureKept(s, t, c, p, k);
    ReapRest(s, t, p, k, kids);
    Assemble(t);
  }

  lemma ReapRest(s: State, t: State, p: nat, k: nat, kids: bool)
    requires Inv(s) && Only(s, t, p, k) && s.procs[p].pc == WaitHave(k, kids) && k != p && s.procs[k].state.Zombie? && s.procs[k].pc.Gone?
    requires s.procs[p].state.Running? && t.exits == s.exits && t.reaps == s.reaps + [Reap(p, s.procs[k].pid, s.procs[k].xstate)] && t.nextpid == s.nextpid
    requires t.procs[p] == s.procs[p].(pc := WaitLeave) && t.procs[k] == Freed(s.procs[k])
    ensures ParentsOk(t) && MakersOk(t) && WaitsOk(t) && PidsOk(t)
  {
    hide CpusOk, ProcsOk, LocksOk, MakersOk, PidsOk, WaitsOk;
    forall q | 0 <= q < |t.procs| ensures ParentOk(t, q) { assert ParentOk(s, q); assert ParentOk(s, k); }
    assert MakeOk(t, p);
    hide MakeAt, ParentsOk;
    MakersKept(s, t, p);
    forall q | Committed(t, q) && HasZombie(t, q) ensures false {
      assert Committed(s, q) && HasZombie(s, q);
      RousesAlone(s, p, q);
    }
    WaitsByHolder(s, t, p);
    ReapPids(s, t, p, k);
  }

  lemma ReapPids(s: State, t: State, p: nat, k: nat)
    requires PidsOk(s) && Only(s, t, p, k) && k != p && s.procs[k].state.Zombie? && t.nextpid == s.nextpid
    requires t.exits == s.exits && t.reaps == s.reaps + [Reap(p, s.procs[k].pid, s.procs[k].xstate)]
    requires t.procs[p] == s.procs[p].(pc := t.procs[p].pc) && t.procs[k].state.Unused?
    ensures PidsOk(t)
  {
    assert PidOk(s, k);
    assert t.reaps[|s.reaps|].pid == s.procs[k].pid;
    forall i | 0 <= i < |t.exits| ensures Kept(t, t.exits[i]) { assert Kept(s, s.exits[i]); KeptStays(s, t, s.exits[i]); }
    forall i, j | 0 <= i < j < |t.reaps| ensures t.reaps[i].pid != t.reaps[j].pid { assert t.reaps[i] == s.reaps[i]; }
    forall j | 0 <= j < |t.procs| ensures PidOk(t, j) {
      assert PidOk(s, j);
      if s.procs[j].state.Zombie? && j != k {
        forall i | 0 <= i < |t.reaps| ensures t.reaps[i].pid != t.procs[j].pid { assert i < |s.reaps| ==> t.reaps[i] == s.reaps[i]; }
      }
    }
  }

  lemma CommitInv(s: State, c: nat, p: nat)
    requires Inv(s) && Acts(s, c, p) && Sized(s) && s.procs[p].pc == WaitSleep0 && s.plock[p].None?
    ensures Inv(At(LockP(s, c, p), p, WaitSleep1))
  {
    hide Inv, PidOk, ParentOk, LocksMoved, Resumes;
    var t := At(LockP(s, c, p), p, WaitSleep1);
    AtProc(s, p);
    Runs(s, c, p);
    LocksByOne(s, t, c, p);
    assert ProcOk(t, p) && BoundsOk(t, p);
    hide ProcOk, BoundsAt, HeldAt;
    StructureKept(s, t, c, p, p);
    CommitRest(s, t, p);
    Assemble(t);
  }

  lemma CommitRest(s: State, t: State, p: nat)
    requires Inv(s) && Only(s, t, p, p) && s.procs[p].pc == WaitSleep0 && HolderOk(s, p)
    requires s.procs[p].state.Running? && t.exits == s.exits && t.reaps == s.reaps && t.nextpid == s.nextpid
    requires t.procs[p] == s.procs[p].(pc := WaitSleep1)
    ensures ParentsOk(t) && MakersOk(t) && WaitsOk(t) && PidsOk(t)
  {
    hide CpusOk, ProcsOk, LocksOk, MakersOk, PidsOk, WaitsOk, ParentsOk;
    ParentsKept(s, t);
    assert MakeOk(t, p);
    hide MakeAt;
    MakersKept(s, t, p);
    PidsKept(s, t);
    forall q | Committed(t, q) && HasZombie(t, q) ensures false {
      assert HasZombie(s, q) && q != p;
      assert Committed(s, q);
      RousesAlone(s, p, q);
    }
    WaitsByHolder(s, t, p);
  }

  // ---------------------------------------------------------------- the scheduler

  /** CPU c changes its own record and the entry k it is concerned with. */
  ghost predicate CpuMoved(s: State, t: State, c: nat, k: nat) {
    && c < |s.cpus| && |t.cpus| == |s.cpus| && t.cpus == s.cpus[c := t.cpus[c]] && k == s.cpus[c].spc.p && Only(s, t, k, k)
    && (t.procs[k].pc == s.procs[k].pc || s.procs[k].where == Some(c))
    && (t.procs[k].where == s.procs[k].where || s.procs[k].where.None? || s.procs[k].where == Some(c))
    && t.wlock == s.wlock
    && forall i :: 0 <= i < |s.plock| ==>
         t.plock[i] == Holder(Held(t, c) == i, s.plock[i], c) && (Held(t, c) == i ==> s.plock[i].None? || s.plock[i] == Some(c))
  }

  lemma CpuKept(s: State, t: State, c: nat, k: nat)
    requires Inv(s) && CpuMoved(s, t, c, k) && CpuOk(t, c) && ProcOk(t, k) && BoundsOk(t, k) && HoldsWait(t, c) == HoldsWait(s, c)
    ensures Sized(t) && CpusOk(t) && ProcsOk(t) && LocksOk(t)
  {
    hide HeldAt, HasWait, StateAt, MakersOk, WaitsOk, PidsOk, ParentsOk, Resumes, Plain, Inner, BoundsAt;
    assert CpuOk(s, c);
    forall d | 0 <= d < |t.cpus| ensures CpuOk(t, d) { assert CpuOk(s, d); }
    forall q | 0 <= q < |t.procs| ensures ProcOk(t, q) && BoundsOk(t, q) {
      assert ProcOk(s, q) && BoundsOk(s, q);
      if q != k { BoundsSame(s, t, q); }
    }
    forall d | 0 <= d < |t.cpus| && d != c ensures Held(t, d) == Held(s, d) && HoldsWait(t, d) == HoldsWait(s, d) {
      assert CpuOk(s, d);
    }
    hide CpusOk, ProcsOk, Held, HoldsWait, CpuOk, ProcOk;
    CpuLocks(s, t, c);
  }

  lemma CpuLocks(s: State, t: State, c: nat)
    requires Sized(s) && Sized(t) && LocksOk(s) && |t.cpus| == |s.cpus| && c < |t.cpus| && t.wlock == s.wlock && |t.plock| == |s.plock|
    requires forall d :: 0 <= d < |t.cpus| && d != c ==> Held(t, d) == Held(s, d) && HoldsWait(t, d) == HoldsWait(s, d)
    requires HoldsWait(t, c) == HoldsWait(s, c)
    requires forall i :: 0 <= i < |s.plock| ==>
      t.plock[i] == Holder(Held(t, c) == i, s.plock[i], c) && (Held(t, c) == i ==> s.plock[i].None? || s.plock[i] == Some(c))
    ensures LocksOk(t)
  {
    hide Held, HoldsWait;
    forall d, k | 0 <= d < |t.cpus| && 0 <= k < |t.plock| ensures t.plock[k] == Some(d) <==> Held(t, d) == k {
      assert s.plock[k] == Some(d) <==> Held(s, d) == k;
    }
    forall d | 0 <= d < |t.cpus| ensures t.wlock == Some(d) <==> HoldsWait(t, d) {
      assert s.wlock == Some(d) <==> HoldsWait(s, d);
    }
  }

  lemma CpuInv(s: State, t: State, c: nat, k: nat)
    requires Inv(s) && CpuMoved(s, t, c, k) && CpuOk(t, c) && ProcOk(t, k) && BoundsOk(t, k) && HoldsWait(t, c) == HoldsWait(s, c)
    requires t.nextpid == s.nextpid && t.exits == s.exits && t.reaps == s.reaps
    requires t.procs[k] == s.procs[k].(state := t.procs[k].state, where := t.procs[k].where, pc := t.procs[k].pc)
    requires t.procs[k].state == s.procs[k].state || (Live(s.procs[k].state) && t.procs[k].state.Running?)
    requires t.procs[k].where == s.procs[k].where || !s.procs[k].state.Used?
    requires t.procs[k].pc == s.procs[k].pc || (
      && !s.procs[k].state.Used? && !HasWait(t.procs[k].pc) && !HasWait(s.procs[k].pc) && Target(t.procs[k].pc) == Target(s.procs[k].pc)
      && MakeOk(t, k) && !t.procs[k].pc.WaitSleep1? && !t.procs[k].pc.WaitSleep2?)
    ensures Inv(t)
  {
    hide HeldAt, StateAt, Target, MakersOk, WaitsOk, PidsOk, ParentsOk, Resumes, Plain, Inner, HolderAt, BoundsAt, ProcOk, CpusOk, ProcsOk, LocksOk;
    CpuKept(s, t, c, k);
    ParentsKept(s, t);
    PidsKept(s, t);
    assert MakeOk(t, k) by { AtProc(s, k); }
    hide MakeAt;
    MakersKept(s, t, k);
    assert forall i :: Committed(t, i) ==> Committed(s, i);
    assert HasWait(t.procs[k].pc) ==> HolderOk(t, k) by { AtProc(s, k); if HasWait(t.procs[k].pc) { HolderKept(s, t, k); } }
    WaitsKept(s, t, k);
  }

  lemma OnScheduler(s: State, c: nat)
    requires Inv(s) && c < |s.cpus| && s.cpus[c].on.None?
    ensures Sized(s) && CpuOk(s, c) && s.wlock != Some(c) && ProcOk(s, s.cpus[c].spc.p) && BoundsOk(s, s.cpus[c].spc.p)
    ensures forall i :: 0 <= i < |s.plock| ==> (s.plock[i] == Some(c) <==> SchedHeld(s.cpus[c].spc) == i)
  {
    hide MakersOk, WaitsOk, PidsOk, ParentsOk, HeldAt, HasWait;
    assert CpuOk(s, c) && ProcOk(s, s.cpus[c].spc.p);
    assert Held(s, c) == SchedHeld(s.cpus[c].spc) && !HoldsWait(s, c);
  }

  lemma SchedInv(s: State, c: nat)
    requires Inv(s) && c < |s.cpus| && s.cpus[c].on.None? && Sized(s) && SchedEnabled(s, c)
    requires !(s.cpus[c].spc.Have? && s.procs[s.cpus[c].spc.p].state.Runnable?) && !s.cpus[c].spc.Switch?
    ensures Inv(StepSched(s, c))
  {
    hide Inv, StateAt, Resumes, BoundsAt, HeldAt, HasWait;
    OnScheduler(s, c);
    BoundsSame(s, StepSched(s, c), s.cpus[c].spc.p);
    CpuInv(s, StepSched(s, c), c, s.cpus[c].spc.p);
  }

  /** A runnable process whose lock the scheduler holds is on no CPU. */
  lemma Dispatchable(s: State, c: nat, k: nat)
    requires Inv(s) && c < |s.cpus| && s.cpus[c].on.None? && s.cpus[c].spc == Have(k) && k < |s.procs| && s.procs[k].state.Runnable?
    ensures s.procs[k].where.None?
  {
    hide MakersOk, WaitsOk, PidsOk, ParentsOk, HasWait;
    OnScheduler(s, c);
    assert ProcOk(s, k);
    if s.procs[k].where.Some? {
      var d := s.procs[k].where.value;
      assert CpuOk(s, d);
      assert Held(s, d) == k <==> s.plock[k] == Some(d);
    }
  }

  lemma DispatchInv(s: State, c: nat, k: nat)
    requires Inv(s) && c < |s.cpus| && s.cpus[c].on.None? && Sized(s) && s.cpus[c].spc == Have(k) && k < |s.procs| && s.procs[k].state.Runnable?
    ensures Inv(StepSched(s, c))
  {
    hide Inv, StateAt, BoundsAt, HeldAt, HasWait;
    OnScheduler(s, c);
    Dispatchable(s, c, k);
    BoundsSame(s, StepSched(s, c), k);
    CpuInv(s, StepSched(s, c), c, k);
  }

  lemma SwitchInv(s: State, c: nat, k: nat)
    requires Inv(s) && c < |s.cpus| && s.cpus[c].on.None? && Sized(s) && s.cpus[c].spc == Switch(k) && k < |s.procs|
    ensures Inv(StepSched(s, c))
  {
    hide Inv, BoundsAt;
    OnScheduler(s, c);
    BoundsSame(s, StepSched(s, c), k);
    CpuInv(s, StepSched(s, c), c, k);
  }

  lemma SwitchOutPlaced(s: State, c: nat, p: nat)
    requires Inv(s) && Acts(s, c, p) && InSwitch(s.procs[p].pc)
    ensures var t := SwitchOut(s, c, p);
      && ProcOk(t, p) && BoundsOk(t, p) && MakeOk(t, p) && !HasWait(t.procs[p].pc) && !HasWait(s.procs[p].pc)
      && Target(t.procs[p].pc) == Target(s.procs[p].pc) && !t.procs[p].pc.WaitSleep1? && !t.procs[p].pc.WaitSleep2?
      && s.procs[p].where == Some(c) && HeldAt(s.procs[p].pc, p) == p && !s.procs[p].state.Used?
  {
    hide Inv, PidOk, ParentOk, Committed, Plain;
    Runs(s, c, p);
    AtProc(s, p);
  }

  lemma SwitchOutInv(s: State, c: nat, p: nat)
    requires Inv(s) && Acts(s, c, p) && InSwitch(s.procs[p].pc)
    ensures Inv(SwitchOut(s, c, p))
  {
    hide Inv, ProcOk, BoundsAt, MakeAt, HeldAt, HasWait, Target, StateAt;
    SwitchOutPlaced(s, c, p);
    Runs(s, c, p);
    AtCpu(s, c);
    CpuInv(s, SwitchOut(s, c, p), c, p);
  }

  lemma AtCpu(s: State, c: nat)
    requires Inv(s) && c < |s.cpus|
    ensures CpuOk(s, c)
  {
  }

  // ---------------------------------------------------------------- every step

  /** The table index in a place is in range. */
  lemma InRange(s: State, p: nat)
    requires Inv(s) && p < |s.procs|
    ensures var pc := s.procs[p].pc;
      pc.ForkHave? || pc.ForkFill? || pc.ForkLink? || pc.ForkRun? || pc.WakeHave? || pc.WaitHave? || pc.KillHave? ==> pc.k < |s.procs|
  {
    hide Inv;
    AtProc(s, p);
  }

  lemma ForkStep(s: State, c: nat, p: nat, a: Act)
    requires Inv(s) && Acts(s, c, p) && Sized(s) && InFork(s.procs[p].pc) && ThreadEnabled(s, p, a) && !a.Timer?
    ensures Inv(StepFork(s, c, p, a))
  {
    hide Inv, Plain, Inner, HasWait, HeldAt;
    InRange(s, p);
    match s.procs[p].pc
    case ForkScan(k) => if k >= |s.procs| { ForkFull(s, c, p, k); } else { ForkTry(s, c, p, k); }
    case ForkHave(k) => if s.procs[k].state.Unused? { AllocInv(s, c, p, k); } else { ForkSkip(s, c, p, k); }
    case ForkFill(k) => if a.Fail? { FillFails(s, c, p, k); } else { ForkFilled(s, c, p, k); }
    case ForkParent(k) => ForkTakeWait(s, c, p, k);
    case ForkLink(k) => ForkLinks(s, c, p, k);
    case ForkReady(k) => ForkRelock(s, c, p, k);
    case ForkRun(k) => ForkRuns(s, c, p, k);
  }

  lemma ExitStep(s: State, c: nat, p: nat)
    requires Inv(s) && Acts(s, c, p) && Sized(s) && InExit(s.procs[p].pc) && ThreadEnabled(s, p, Go)
    ensures Inv(StepExit(s, c, p))
  {
    hide Inv, Plain, Inner, HasWait, HeldAt;
    InRange(s, p);
    match s.procs[p].pc
    case ExitStart(st) => ExitTakeWait(s, c, p, st);
    case Reparent(j, st) =>
      if j >= |s.procs| { ReparentDone(s, c, p, j, st); }
      else if s.procs[j].parent == Some(p) { ReparentInv(s, c, p, j, st); }
      else { ReparentSkip(s, c, p, j, st); }
    case Wake(ch, k, ret) =>
      if k >= |s.procs| { WakeDone(s, c, p, ch, k, ret); }
      else if k == p { WakeSelf(s, c, p, ch, ret); }
      else { WakeTry(s, c, p, ch, k, ret); }
    case WakeHave(ch, k, ret) => WakeInv(s, c, p, ch, k, ret);
    case ExitLock(st) => ExitTakeOwn(s, c, p, st);
    case ExitDie(st) => DieInv(s, c, p, st);
    case ExitUnlock => ExitDropWait(s, c, p);
  }

  lemma WaitStep(s: State, c: nat, p: nat, a: Act)
    requires Inv(s) && Acts(s, c, p) && Sized(s) && InWait(s.procs[p].pc) && ThreadEnabled(s, p, a) && !a.Timer?
    ensures Inv(StepWait(s, c, p, a))
  {
    hide Inv, Plain, Inner, HasWait, HeldAt;
    InRange(s, p);
    match s.procs[p].pc
    case WaitStart => WaitTakeWait(s, c, p);
    case WaitScan(k, kids) =>
      if k >= |s.procs| { WaitScanned(s, c, p, k, kids, if !kids || s.procs[p].killed then WaitLeave else WaitSleep0); }
      else if s.procs[k].parent == Some(p) { WaitTry(s, c, p, k, kids); }
      else { WaitNext(s, c, p, k, kids); }
    case WaitHave(k, kids) =>
      if !s.procs[k].state.Zombie? { WaitAlive(s, c, p, k, kids); }
      else if a.Fail? { WaitCopyFails(s, c, p, k, kids); }
      else { ReapInv(s, c, p, k, kids); }
    case WaitLeave => WaitReturn(s, c, p);
    case WaitSleep0 => CommitInv(s, c, p);
    case WaitSleep1 => WaitDropWait(s, c, p);
  }

  lemma OtherStep(s: State, c: nat, p: nat, a: Act)
    requires Inv(s) && Acts(s, c, p) && Sized(s) && ThreadEnabled(s, p, a) && !a.Timer?
    requires !InFork(s.procs[p].pc) && !InExit(s.procs[p].pc) && !InWait(s.procs[p].pc) && !InSwitch(s.procs[p].pc)
    ensures Inv(StepOther(s, c, p, a))
  {
    hide Inv, Plain, Inner, HasWait, HeldAt;
    InRange(s, p);
    match s.procs[p].pc
    case User => EnterKernel(s, c, p, a);
    case ForkRet => ForkReturns(s, c, p);
    case WaitSleep2 => WaitSleeps(s, c, p);
    case Sleep0(m) => SleepTakeOwn(s, c, p, m);
    case Sleep2(m) => Sleeps(s, c, p, m);
    case SleepBack(w) => SleepReturns(s, c, p, w);
    case KillScan(pid, k) => if k >= |s.procs| { KillEnd(s, c, p, pid, k); } else { KillTry(s, c, p, pid, k); }
    case KillHave(pid, k) => if s.procs[k].pid == pid { KillInv(s, c, p, pid, k); } else { KillSkip(s, c, p, pid, k); }
    case Yield0(b) => YieldTakeOwn(s, c, p, b);
    case Yield1(b) => Yields(s, c, p, b);
    case YieldBack(b) => YieldReturns(s, c, p, b);
    case _ =>
  }

  /** Every step of every CPU keeps the invariant. */
  lemma StepInv(s: State, c: nat, a: Act)
    requires Inv(s) && Enabled(s, c, a)
    ensures Inv(Step(s, c, a))
  {
    hide Inv, StepFork, StepExit, StepWait, StepOther, SwitchOut, StepSched;
    if s.cpus[c].on.Some? {
      var p := s.cpus[c].on.value;
      var pc := s.procs[p].pc;
      if a.Timer? { Interrupted(s, c, p, pc); }
      else if InFork(pc) { ForkStep(s, c, p, a); }
      else if InExit(pc) { ExitStep(s, c, p); }
      else if InWait(pc) { WaitStep(s, c, p, a); }
      else if InSwitch(pc) { SwitchOutInv(s, c, p); }
      else { OtherStep(s, c, p, a); }
    } else {
      var k := s.cpus[c].spc.p;
      if s.cpus[c].spc.Switch? { SwitchInv(s, c, k); }
      else if s.cpus[c].spc.Have? && s.procs[k].state.Runnable? { DispatchInv(s, c, k); }
      else { SchedInv(s, c); }
    }
  }
}
