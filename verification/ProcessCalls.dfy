/** What the system calls of the process table promise their callers, over every run
    (xv6-lab-syscalls/proc.c:104-135, 272-430, 450-466, 529-599): when wait and fork return and with what,
    whose status a parent gets, whom wakeup and kill reach, and what the scheduler skips. */
module ProcessCalls {
  import opened Common
  import opened Processes
  import opened ProcessProof
  import opened ProcessRuns

  // ---------------------------------------------------------------- what others may do to a process

  /** The thread on CPU c is about to wake p, or to kill it. */
  ghost predicate Waker(s: State, c: nat, p: nat) {
    c < |s.cpus| && s.cpus[c].on.Some? && s.cpus[c].on.value < |s.procs| && p < |s.procs| && s.cpus[c].on.value != p
    && var pc := s.procs[s.cpus[c].on.value].pc; pc.WakeHave? && pc.k == p && pc.chan == s.procs[p].chan
  }

  ghost predicate Killer(s: State, c: nat, p: nat) {
    c < |s.cpus| && s.cpus[c].on.Some? && s.cpus[c].on.value < |s.procs| && p < |s.procs|
    && var pc := s.procs[s.cpus[c].on.value].pc; pc.KillHave? && pc.k == p && pc.pid == s.procs[p].pid
  }

  ghost predicate Reparenter(s: State, c: nat, p: nat) {
    c < |s.cpus| && s.cpus[c].on.Some? && s.cpus[c].on.value < |s.procs| && p < |s.procs|
    && s.procs[s.cpus[c].on.value].pc.Reparent? && s.procs[s.cpus[c].on.value].pc.j == p && s.procs[p].parent == s.cpus[c].on
  }

  /** A live process that CPU c does not run: only wakeup on its channel or kill ends its sleep, only kill
      marks it, only the scheduler starts it, only reparent changes its parent. */
  ghost predicate LeftAlone(s: State, c: nat, t: State, p: nat) {
    && p < |s.procs| == |t.procs|
    && var x, y := s.procs[p], t.procs[p];
       && y.pc == x.pc && y.pid == x.pid && y.chan == x.chan && y.xstate == x.xstate
       && (y.parent == x.parent || (y.parent == Some(s.init) && Reparenter(s, c, p)))
       && (y.killed == x.killed || (y.killed && Killer(s, c, p)))
       && (y.state == x.state
           || (x.state.Sleeping? && y.state.Runnable? && (Waker(s, c, p) || Killer(s, c, p)))
           || (x.state.Runnable? && y.state.Running? && c < |s.cpus| && s.cpus[c].on.None? && s.cpus[c].spc == Have(p)))
  }

  lemma ForkLeaves(s: State, c: nat, q: nat, a: Act, p: nat)
    requires Inv(s) && Acts(s, c, q) && InFork(s.procs[q].pc) && ThreadEnabled(s, q, a) && !a.Timer? && p < |s.procs| && p != q && Live(s.procs[p].state)
    ensures LeftAlone(s, c, StepFork(s, c, q, a), p)
  {
    hide Inv, Plain, Waker, Killer;
    AtProc(s, q);
    AtProc(s, p);
  }

  lemma ExitLeaves(s: State, c: nat, q: nat, p: nat)
    requires Inv(s) && Acts(s, c, q) && InExit(s.procs[q].pc) && ThreadEnabled(s, q, Go) && p < |s.procs| && p != q && Live(s.procs[p].state)
    ensures LeftAlone(s, c, StepExit(s, c, q), p)
  {
    hide Inv, Plain;
    AtProc(s, q);
  }

  lemma WaitLeaves(s: State, c: nat, q: nat, a: Act, p: nat)
    requires Inv(s) && Acts(s, c, q) && InWait(s.procs[q].pc) && ThreadEnabled(s, q, a) && !a.Timer? && p < |s.procs| && p != q && Live(s.procs[p].state)
    ensures LeftAlone(s, c, StepWait(s, c, q, a), p)
  {
    hide Inv, Plain, Waker, Killer;
    AtProc(s, q);
  }

  lemma OtherLeaves(s: State, c: nat, q: nat, a: Act, p: nat)
    requires Inv(s) && Acts(s, c, q) && ThreadEnabled(s, q, a) && !a.Timer? && p < |s.procs| && p != q && Live(s.procs[p].state)
    requires !InFork(s.procs[q].pc) && !InExit(s.procs[q].pc) && !InWait(s.procs[q].pc) && !InSwitch(s.procs[q].pc)
    ensures LeftAlone(s, c, StepOther(s, c, q, a), p)
  {
    hide Inv, Plain;
    AtProc(s, q);
  }

  lemma Bystander(s: State, c: nat, a: Act, p: nat)
    requires Inv(s) && Enabled(s, c, a) && p < |s.procs| && s.cpus[c].on != Some(p) && Live(s.procs[p].state)
    ensures LeftAlone(s, c, Step(s, c, a), p)
  {
    hide Inv, Plain, StepFork, StepExit, StepWait, StepOther;
    if s.cpus[c].on.None? {
      SchedLeaves(s, c, p);
    } else {
      var q := s.cpus[c].on.value;
      hide LeftAlone;
      var pc := s.procs[q].pc;
      if a.Timer? { TimerLeaves(s, c, q, p); }
      else if InFork(pc) { ForkLeaves(s, c, q, a, p); }
      else if InExit(pc) { ExitLeaves(s, c, q, p); }
      else if InWait(pc) { WaitLeaves(s, c, q, a, p); }
      else if InSwitch(pc) { SwitchLeaves(s, c, q, p); }
      else { OtherLeaves(s, c, q, a, p); }
    }
  }

  lemma SchedLeaves(s: State, c: nat, p: nat)
    requires Sized(s) && c < |s.cpus| && SchedEnabled(s, c) && s.cpus[c].on.None? && p < |s.procs|
    ensures LeftAlone(s, c, StepSched(s, c), p)
  {
  }

  lemma TimerLeaves(s: State, c: nat, q: nat, p: nat)
    requires p < |s.procs| && q < |s.procs| && p != q
    ensures LeftAlone(s, c, At(s, q, Yield0(s.procs[q].pc)), p)
  {
  }

  lemma SwitchLeaves(s: State, c: nat, q: nat, p: nat)
    requires q < |s.procs| && c < |s.cpus| && InSwitch(s.procs[q].pc) && p < |s.procs| && p != q
    ensures LeftAlone(s, c, SwitchOut(s, c, q), p)
  {
  }

  /** In every run a live process that is not on the stepping CPU is left alone in this sense. */
  lemma OnlyWakeupOrKill(run: seq<State>, i: nat, p: nat) returns (c: nat, a: Act)
    requires IsRun(run) && i + 1 < |run| && p < |run[i].procs| && Live(run[i].procs[p].state)
    ensures Moves(run[i], c, a, run[i + 1])
    ensures run[i].cpus[c].on == Some(p) || LeftAlone(run[i], c, run[i + 1], p)
  {
    RunInv(run, i);
    assert Next(run[i], run[i + 1]);
    c, a :| Moves(run[i], c, a, run[i + 1]);
    hide Inv, Step, LeftAlone;
    if run[i].cpus[c].on != Some(p) { Bystander(run[i], c, a, p); }
  }

  // ---------------------------------------------------------------- wait

  ghost predicate ChildBelow(s: State, p: nat, k: nat) { exists i :: 0 <= i < k && i < |s.procs| && s.procs[i].parent == Some(p) }

  ghost predicate SameParents(s: State, t: State) {
    |t.procs| == |s.procs| && forall i :: 0 <= i < |s.procs| ==> t.procs[i].parent == s.procs[i].parent
  }

  /** havekids is right for the part of the table that the scan of wait has passed. */
  ghost predicate KidsOk(s: State, p: nat) {
    p < |s.procs| && (s.procs[p].pc.WaitScan? || s.procs[p].pc.WaitHave? ==> (s.procs[p].pc.kids <==> ChildBelow(s, p, s.procs[p].pc.k)))
  }

  /** While p holds wait_lock nobody else changes a parent. */
  lemma ParentsFrozen(s: State, c: nat, a: Act, p: nat)
    requires Inv(s) && Enabled(s, c, a) && p < |s.procs| && HasWait(s.procs[p].pc) && s.cpus[c].on != Some(p)
    ensures SameParents(s, Step(s, c, a))
  {
    hide Inv, Plain, StepFork, StepExit, StepWait, StepOther, HasWait;
    if s.cpus[c].on.Some? {
      var q := s.cpus[c].on.value;
      assert !HasWait(s.procs[q].pc) by { AloneInWait(s, p, q); }
      hide SameParents;
      var pc := s.procs[q].pc;
      if a.Timer? { TimerParents(s, q); }
      else if InFork(pc) { ForkParents(s, c, q, a); }
      else if InExit(pc) { ExitParents(s, c, q); }
      else if InWait(pc) { WaitParents(s, c, q, a); }
      else if InSwitch(pc) { SwitchParents(s, c, q); }
      else { OtherParents(s, c, q, a); }
    }
  }

  lemma AloneInWait(s: State, p: nat, q: nat)
    requires Inv(s) && p < |s.procs| && q < |s.procs| && p != q && HasWait(s.procs[p].pc)
    ensures !HasWait(s.procs[q].pc)
  {
    hide MakersOk, WaitsOk, PidsOk, ParentsOk, HasWait;
    if HasWait(s.procs[q].pc) { WaitUnique(s, p, q); }
  }

  lemma TimerParents(s: State, q: nat)
    requires q < |s.procs|
    ensures SameParents(s, At(s, q, Yield0(s.procs[q].pc)))
  {
  }

  lemma ForkParents(s: State, c: nat, q: nat, a: Act)
    requires Inv(s) && Acts(s, c, q) && InFork(s.procs[q].pc) && ThreadEnabled(s, q, a) && !a.Timer? && !HasWait(s.procs[q].pc)
    ensures SameParents(s, StepFork(s, c, q, a))
  {
    hide Inv, Plain;
    AtProc(s, q);
  }

  lemma ExitParents(s: State, c: nat, q: nat)
    requires Sized(s) && Acts(s, c, q) && InExit(s.procs[q].pc) && ThreadEnabled(s, q, Go) && !HasWait(s.procs[q].pc)
    ensures SameParents(s, StepExit(s, c, q))
  {
    hide Plain;
  }

  lemma WaitParents(s: State, c: nat, q: nat, a: Act)
    requires Sized(s) && Acts(s, c, q) && InWait(s.procs[q].pc) && ThreadEnabled(s, q, a) && !a.Timer? && !HasWait(s.procs[q].pc)
    ensures SameParents(s, StepWait(s, c, q, a))
  {
    hide Plain;
  }

  lemma SwitchParents(s: State, c: nat, q: nat)
    requires q < |s.procs| && c < |s.cpus| && InSwitch(s.procs[q].pc)
    ensures SameParents(s, SwitchOut(s, c, q))
  {
  }

  lemma OtherParents(s: State, c: nat, q: nat, a: Act)
    requires Sized(s) && Acts(s, c, q) && ThreadEnabled(s, q, a) && !a.Timer?
    ensures SameParents(s, StepOther(s, c, q, a))
  {
    hide Plain;
  }

  /** A step of a thread in wait, told by what it does. */
  lemma WaitOwn(s: State, c: nat, p: nat, a: Act)
    requires Sized(s) && Acts(s, c, p) && InWait(s.procs[p].pc) && ThreadEnabled(s, p, a) && !a.Timer? && KidsOk(s, p)
    requires (HasWait(s.procs[p].pc) ==> HolderOk(s, p)) && BoundsOk(s, p) && s.procs[p].state.Running?
    ensures KidsOk(StepWait(s, c, p, a), p)
    ensures StepWait(s, c, p, a).procs[p].pc.WaitLeave? ==> Returns(s, a, StepWait(s, c, p, a), p)
    ensures StepWait(s, c, p, a).procs[p].pc.WaitSleep0? ==> ChildBelow(s, p, |s.procs|) && !s.procs[p].killed
    ensures StepWait(s, c, p, a).procs[p].pc.User? ==> s.procs[p].pc.WaitLeave?
  {
    hide Plain;
    var t := StepWait(s, c, p, a);
    var pc := s.procs[p].pc;
    if pc.WaitScan? || (pc.WaitHave? && !s.procs[pc.k].state.Zombie?) { KidsNext(s, t, p, pc.k); }
  }

  lemma KidsNext(s: State, t: State, p: nat, k: nat)
    requires |t.procs| == |s.procs| && forall i :: 0 <= i < k && i < |s.procs| ==> (t.procs[i].parent == Some(p) <==> s.procs[i].parent == Some(p))
    requires k < |s.procs| ==> (t.procs[k].parent == Some(p) <==> s.procs[k].parent == Some(p))
    ensures ChildBelow(t, p, k) <==> ChildBelow(s, p, k)
    ensures ChildBelow(t, p, k + 1) <==> ChildBelow(s, p, k) || (k < |s.procs| && s.procs[k].parent == Some(p))
  {
  }

  /** Why wait returns: it has collected a zombie child; or the status of one could not be copied out,
      and the child stays; or no child is a zombie and p is killed; or p has no child. */
  ghost predicate Returns(s: State, a: Act, t: State, p: nat) {
    && p < |s.procs| == |t.procs|
    && var k := if s.procs[p].pc.WaitHave? then s.procs[p].pc.k else |s.procs|;
       || (a.Go? && k < |s.procs| && s.procs[k].state.Zombie? && s.procs[k].parent == Some(p) && t.procs[k].state.Unused?
           && t.reaps == s.reaps + [Reap(p, s.procs[k].pid, s.procs[k].xstate)])
       || (a.Fail? && k < |s.procs| && s.procs[k].state.Zombie? && s.procs[k].parent == Some(p) && t.procs[k] == s.procs[k] && t.reaps == s.reaps)
       || (k >= |s.procs| && s.procs[p].killed && t.reaps == s.reaps && forall i :: 0 <= i < |s.procs| && s.procs[i].parent == Some(p) ==> !s.procs[i].state.Zombie?)
       || (k >= |s.procs| && t.reaps == s.reaps && forall i :: 0 <= i < |s.procs| ==> s.procs[i].parent != Some(p))
  }

  lemma KidsSame(s: State, t: State, p: nat)
    requires KidsOk(s, p) && SameParents(s, t) && t.procs[p].pc == s.procs[p].pc
    ensures KidsOk(t, p)
  {
    assert forall k :: ChildBelow(t, p, k) <==> ChildBelow(s, p, k);
  }

  /** The thread on CPU c is p, and it is in wait afterwards: it was before, or has just called it. */
  lemma OwnIntoWait(s: State, c: nat, a: Act, p: nat)
    requires Inv(s) && Enabled(s, c, a) && Acts(s, c, p) && KidsOk(s, p)
    ensures KidsOk(Step(s, c, a), p)
    ensures Step(s, c, a).procs[p].pc.WaitLeave? ==> InWait(s.procs[p].pc) && Returns(s, a, Step(s, c, a), p)
  {
    hide Inv, Plain, StepFork, StepExit, StepWait, StepOther, SwitchOut, HeldAt, HasWait;
    AtProc(s, p);
    Runs(s, c, p);
    var pc := s.procs[p].pc;
    if a.Timer? { }
    else if InFork(pc) { ForkNotWait(s, c, p, a); }
    else if InExit(pc) { ExitNotWait(s, c, p); }
    else if InWait(pc) { InWaitRuns(s, p); WaitOwn(s, c, p, a); }
    else if InSwitch(pc) { SwitchNotWait(s, c, p); }
    else { OtherNotWait(s, c, p, a); }
  }

  predicate Scanning(pc: Pc) { pc.WaitScan? || pc.WaitHave? || pc.WaitLeave? }

  lemma InWaitRuns(s: State, p: nat)
    requires p < |s.procs| && s.procs[p].state == StateAt(s.procs[p].pc) && InWait(s.procs[p].pc)
    ensures s.procs[p].state.Running?
  {
  }

  lemma ForkNotWait(s: State, c: nat, p: nat, a: Act)
    requires Sized(s) && Acts(s, c, p) && InFork(s.procs[p].pc) && ThreadEnabled(s, p, a) && !a.Timer? && MakeOk(s, p) && BoundsOk(s, p)
    ensures |StepFork(s, c, p, a).procs| == |s.procs| && !Scanning(StepFork(s, c, p, a).procs[p].pc)
  {
    hide Plain;
  }

  lemma ExitNotWait(s: State, c: nat, p: nat)
    requires Sized(s) && Acts(s, c, p) && InExit(s.procs[p].pc) && ThreadEnabled(s, p, Go)
    ensures |StepExit(s, c, p).procs| == |s.procs| && !Scanning(StepExit(s, c, p).procs[p].pc)
  {
    hide Plain;
  }

  lemma SwitchNotWait(s: State, c: nat, p: nat)
    requires Acts(s, c, p) && InSwitch(s.procs[p].pc)
    ensures |SwitchOut(s, c, p).procs| == |s.procs| && !Scanning(SwitchOut(s, c, p).procs[p].pc)
  {
  }

  lemma OtherNotWait(s: State, c: nat, p: nat, a: Act)
    requires Sized(s) && Acts(s, c, p) && ThreadEnabled(s, p, a) && !a.Timer? && BoundsOk(s, p) && !InWait(s.procs[p].pc)
    requires !InFork(s.procs[p].pc) && !InExit(s.procs[p].pc) && !InSwitch(s.procs[p].pc)
    ensures |StepOther(s, c, p, a).procs| == |s.procs| && !Scanning(StepOther(s, c, p, a).procs[p].pc)
  {
    hide HasWait, HeldAt;
    if s.procs[p].pc.YieldBack? { PlainNotScanning(s.procs[p].pc.back); }
    hide Plain;
  }

  lemma PlainNotScanning(pc: Pc)
    requires Plain(pc)
    ensures !Scanning(pc)
  {
  }

  /** Of another process's thread a step changes at most that allocproc gives it a new place. */
  lemma OthersPc(s: State, c: nat, a: Act, p: nat)
    requires Inv(s) && Enabled(s, c, a) && p < |s.procs| && s.cpus[c].on != Some(p)
    ensures |Step(s, c, a).procs| == |s.procs|
    ensures Step(s, c, a).procs[p].pc == s.procs[p].pc || Step(s, c, a).procs[p].pc.ForkRet?
  {
    hide Inv, Plain, StepFork, StepExit, StepWait, StepOther;
    if s.cpus[c].on.Some? {
      var q := s.cpus[c].on.value;
      var pc := s.procs[q].pc;
      if a.Timer? { }
      else if InFork(pc) { ForkPcs(s, c, q, a, p); }
      else if InExit(pc) { ExitPcs(s, c, q, p); }
      else if InWait(pc) { WaitPcs(s, c, q, a, p); }
      else if InSwitch(pc) { }
      else { OtherPcs(s, c, q, a, p); }
    }
  }

  lemma ForkPcs(s: State, c: nat, q: nat, a: Act, p: nat)
    requires Sized(s) && Acts(s, c, q) && InFork(s.procs[q].pc) && ThreadEnabled(s, q, a) && !a.Timer? && p < |s.procs| && p != q
    ensures var t := StepFork(s, c, q, a); |t.procs| == |s.procs| && (t.procs[p].pc == s.procs[p].pc || t.procs[p].pc.ForkRet?)
  {
    hide Plain;
  }

  lemma ExitPcs(s: State, c: nat, q: nat, p: nat)
    requires Sized(s) && Acts(s, c, q) && InExit(s.procs[q].pc) && ThreadEnabled(s, q, Go) && p < |s.procs| && p != q
    ensures var t := StepExit(s, c, q); |t.procs| == |s.procs| && t.procs[p].pc == s.procs[p].pc
  {
    hide Plain;
  }

  lemma WaitPcs(s: State, c: nat, q: nat, a: Act, p: nat)
    requires Sized(s) && Acts(s, c, q) && InWait(s.procs[q].pc) && ThreadEnabled(s, q, a) && !a.Timer? && p < |s.procs| && p != q
    ensures var t := StepWait(s, c, q, a); |t.procs| == |s.procs| && t.procs[p].pc == s.procs[p].pc
  {
    hide Plain;
  }

  lemma OtherPcs(s: State, c: nat, q: nat, a: Act, p: nat)
    requires Sized(s) && Acts(s, c, q) && ThreadEnabled(s, q, a) && !a.Timer? && p < |s.procs| && p != q
    ensures var t := StepOther(s, c, q, a); |t.procs| == |s.procs| && t.procs[p].pc == s.procs[p].pc
  {
    hide Plain;
  }

  lemma KidsStep(s: State, c: nat, a: Act, p: nat)
    requires Inv(s) && Enabled(s, c, a) && p < |s.procs| && KidsOk(s, p)
    ensures KidsOk(Step(s, c, a), p)
  {
    hide Inv, KidsOk, Step, Enabled;
    var t := Step(s, c, a);
    if c < |s.cpus| && s.cpus[c].on == Some(p) {
      OwnIntoWait(s, c, a, p);
    } else {
      assert s.cpus[c].on != Some(p) by { InEnabled(s, c, a); }
      OthersPc(s, c, a, p);
      if Scanning(s.procs[p].pc) {
        ScanningWaits(s.procs[p].pc);
        RunsInWait(s, p);
        Bystander(s, c, a, p);
        ParentsFrozen(s, c, a, p);
        KidsSame(s, t, p);
      } else {
        NoScanNoKids(t, p);
      }
    }
  }

  lemma InEnabled(s: State, c: nat, a: Act)
    requires Enabled(s, c, a)
    ensures c < |s.cpus|
  {
    hide ThreadEnabled;
  }

  lemma ScanningWaits(pc: Pc)
    requires Scanning(pc)
    ensures HasWait(pc) && !pc.ExitUnlock?
  {
  }

  lemma NoScanNoKids(s: State, p: nat)
    requires p < |s.procs| && !Scanning(s.procs[p].pc)
    ensures KidsOk(s, p)
  {
  }

  lemma RunsInWait(s: State, p: nat)
    requires Inv(s) && p < |s.procs| && HasWait(s.procs[p].pc) && !s.procs[p].pc.ExitUnlock?
    ensures Live(s.procs[p].state)
  {
    hide MakersOk, WaitsOk, PidsOk, ParentsOk;
    WaitHolder(s, p);
    Runs(s, s.procs[p].where.value, p);
  }

  lemma {:induction false} RunKids(run: seq<State>, n: nat, p: nat)
    requires IsRun(run) && n < |run| && p < |run[n].procs|
    ensures KidsOk(run[n], p)
    decreases n
  {
    if n == 0 {
      NoScanNoKids(run[0], p);
    } else {
      RunInv(run, n - 1);
      assert Next(run[n - 1], run[n]);
      var c, a :| Moves(run[n - 1], c, a, run[n]);
      hide Inv, IsRun, Next, Step, Enabled, KidsOk;
      SameSize(run[n - 1], c, a);
      RunKids(run, n - 1, p);
      KidsStep(run[n - 1], c, a, p);
    }
  }

  lemma ThreadSize(s: State, c: nat, p: nat, a: Act)
    requires Sized(s) && c < |s.cpus| && p < |s.procs| && ThreadEnabled(s, p, a) && !a.Timer?
    ensures InFork(s.procs[p].pc) ==> |StepFork(s, c, p, a).procs| == |s.procs|
    ensures InExit(s.procs[p].pc) && a.Go? ==> |StepExit(s, c, p).procs| == |s.procs|
    ensures InWait(s.procs[p].pc) ==> |StepWait(s, c, p, a).procs| == |s.procs|
    ensures |StepOther(s, c, p, a).procs| == |s.procs|
  {
    hide Plain;
  }

  lemma SameSize(s: State, c: nat, a: Act)
    requires Enabled(s, c, a)
    ensures |Step(s, c, a).procs| == |s.procs|
  {
    hide Plain, StepFork, StepExit, StepWait, StepOther;
    if s.cpus[c].on.Some? && !a.Timer? { ThreadSize(s, c, s.cpus[c].on.value, a); }
  }

  /** In every run wait returns only for one of the four reasons, and with the child and status they
      name. In particular, with a child and not killed, it returns only with a zombie. */
  lemma WaitReturns(run: seq<State>, n: nat, p: nat) returns (c: nat, a: Act)
    requires IsRun(run) && n + 1 < |run| && p < |run[n].procs| && p < |run[n + 1].procs|
    requires !run[n].procs[p].pc.WaitLeave? && run[n + 1].procs[p].pc.WaitLeave?
    ensures Moves(run[n], c, a, run[n + 1]) && run[n].cpus[c].on == Some(p) && Returns(run[n], a, run[n + 1], p)
  {
    RunInv(run, n);
    RunKids(run, n, p);
    assert Next(run[n], run[n + 1]);
    c, a :| Moves(run[n], c, a, run[n + 1]);
    hide Inv, IsRun, KidsOk, Returns, Step;
    if run[n].cpus[c].on != Some(p) { OthersPc(run[n], c, a, p); } else { OwnIntoWait(run[n], c, a, p); }
  }

  /** A thread in wait that meets a zombie child and can copy its status out collects it. */
  lemma ZombieIsReaped(s: State, c: nat, p: nat)
    requires Inv(s) && Acts(s, c, p) && s.procs[p].pc.WaitHave? && Enabled(s, c, Go) && s.procs[p].pc.k < |s.procs| && s.procs[s.procs[p].pc.k].state.Zombie?
    ensures var k, t := s.procs[p].pc.k, Step(s, c, Go);
      && s.procs[k].parent == Some(p) && t.reaps == s.reaps + [Reap(p, s.procs[k].pid, s.procs[k].xstate)]
      && |t.procs| == |s.procs| && t.procs[k] == Freed(s.procs[k]) && t.procs[p].pc.WaitLeave?
  {
    hide Inv;
    AtProc(s, p);
    Runs(s, c, p);
  }

  /** In wait, asleep in it, or interrupted in it. */
  predicate WaitCall(pc: Pc) {
    var q := Inner(pc);
    InWait(q) || q.WaitSleep2? || (q.SleepSched? && q.inWait) || (q.SleepBack? && q.inWait)
  }

  /** Nothing but WaitLeave leads out of wait: when p is woken it scans again. */
  lemma WaitGoesOn(s: State, c: nat, a: Act, p: nat)
    requires Inv(s) && Enabled(s, c, a) && p < |s.procs| && WaitCall(s.procs[p].pc) && !s.procs[p].pc.WaitLeave?
    ensures |Step(s, c, a).procs| == |s.procs| && WaitCall(Step(s, c, a).procs[p].pc)
  {
    hide Inv, Step;
    SameSize(s, c, a);
    if s.cpus[c].on == Some(p) {
      OwnWaitGoesOn(s, c, a, p);
    } else {
      WaiterLives(s, p);
      Bystander(s, c, a, p);
    }
  }

  lemma WaiterLives(s: State, p: nat)
    requires Inv(s) && p < |s.procs| && WaitCall(s.procs[p].pc)
    ensures Live(s.procs[p].state)
  {
    hide MakersOk, WaitsOk, PidsOk, ParentsOk, LocksOk;
    assert ProcOk(s, p) && BoundsOk(s, p);
  }

  lemma OwnWaitGoesOn(s: State, c: nat, a: Act, p: nat)
    requires Inv(s) && Enabled(s, c, a) && Acts(s, c, p) && WaitCall(s.procs[p].pc) && !s.procs[p].pc.WaitLeave?
    ensures WaitCall(Step(s, c, a).procs[p].pc)
  {
    hide Inv, StepFork, StepExit, StepWait, StepOther, HeldAt, HasWait;
    AtProc(s, p);
    Runs(s, c, p);
    var pc := s.procs[p].pc;
    if a.Timer? { PlainPlace(pc); }
    hide Plain;
    if InWait(pc) && !a.Timer? { WaitStays(s, c, p, a); }
    else if !a.Timer? && !InSwitch(pc) { OtherStays(s, c, p, a); }
  }

  lemma WaitStays(s: State, c: nat, p: nat, a: Act)
    requires Sized(s) && Acts(s, c, p) && InWait(s.procs[p].pc) && ThreadEnabled(s, p, a) && !a.Timer? && BoundsOk(s, p) && s.procs[p].state == StateAt(s.procs[p].pc)
    ensures !s.procs[p].pc.WaitLeave? ==> WaitCall(StepWait(s, c, p, a).procs[p].pc)
  {
    hide Plain;
  }

  lemma OtherStays(s: State, c: nat, p: nat, a: Act)
    requires Sized(s) && Acts(s, c, p) && ThreadEnabled(s, p, a) && !a.Timer? && BoundsOk(s, p) && WaitCall(s.procs[p].pc) && !InWait(s.procs[p].pc) && !InSwitch(s.procs[p].pc)
    ensures WaitCall(StepOther(s, c, p, a).procs[p].pc)
  {
    hide HeldAt, HasWait;
    if s.procs[p].pc.YieldBack? { PlainPlace(s.procs[p].pc.back); }
    hide Plain;
  }

  lemma PlainPlace(pc: Pc)
    requires Plain(pc)
    ensures Inner(pc) == pc
  {
  }
}
