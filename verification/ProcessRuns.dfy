/** What holds in every run of the process table: any number of CPUs and processes, any interleaving. */
module ProcessRuns {
  import opened Common
  import opened Processes
  import opened ProcessProof

  /** After userinit: init is runnable, every other entry is free, every CPU is in its scheduler. */
  ghost predicate Init(s: State) {
    && Sized(s) && s.wlock.None? && s.exits == [] && s.reaps == [] && s.nextpid == 2
    && (forall k :: 0 <= k < |s.plock| ==> s.plock[k].None?)
    && (forall c :: 0 <= c < |s.cpus| ==> s.cpus[c].on.None? && s.cpus[c].proc.None? && s.cpus[c].spc.Look? && s.cpus[c].spc.p < |s.procs|)
    && (forall k :: 0 <= k < |s.procs| ==>
          s.procs[k] == if k == s.init then Proc(Runnable, NoChan, None, 1, 0, false, ForkRet, None)
                        else Proc(Unused, NoChan, None, 0, 0, false, Gone, None))
  }

  ghost predicate Next(s: State, t: State) { exists c, a :: Moves(s, c, a, t) }
  ghost predicate Moves(s: State, c: nat, a: Act, t: State) { Enabled(s, c, a) && t == Step(s, c, a) }

  ghost predicate IsRun(run: seq<State>) {
    |run| > 0 && Init(run[0]) && forall i :: 0 <= i < |run| - 1 ==> Next(run[i], run[i + 1])
  }

  lemma InitProcs(s: State)
    requires Init(s)
    ensures ProcsOk(s) && ParentsOk(s) && MakersOk(s) && PidsOk(s)
  {
    hide HeldAt, HasWait;
    forall p | 0 <= p < |s.procs| ensures ProcOk(s, p) && BoundsOk(s, p) && ParentOk(s, p) && MakeOk(s, p) && PidOk(s, p) { }
  }

  lemma InitInv(s: State)
    requires Init(s)
    ensures Inv(s)
  {
    InitProcs(s);
    hide ProcsOk, ParentsOk, MakersOk, PidsOk;
    assert CpusOk(s) && LocksOk(s);
    assert forall q :: !Committed(s, q);
  }

  /** The invariant holds in every state of every run. */
  lemma {:induction false} RunInv(run: seq<State>, i: nat)
    requires IsRun(run) && i < |run|
    ensures Inv(run[i])
    decreases i
  {
    hide Inv, Init, Enabled, Step;
    if i == 0 {
      InitInv(run[0]);
    } else {
      RunInv(run, i - 1);
      assert Next(run[i - 1], run[i]);
      var c, a :| Moves(run[i - 1], c, a, run[i]);
      StepInv(run[i - 1], c, a);
    }
  }

  // ---------------------------------------------------------------- scheduling

  /** No process runs on two CPUs; c->proc names the process on the CPU, so myproc() is right; and
      while one CPU is still on the stack of p, no CPU is about to switch to p: its registers have
      been saved by then. */
  lemma RunsOnOneCpu(run: seq<State>, i: nat, c: nat, d: nat, p: nat)
    requires IsRun(run) && i < |run| && c < |run[i].cpus| && d < |run[i].cpus| && c != d
    requires run[i].cpus[c].on == Some(p)
    ensures run[i].cpus[c].proc == Some(p)
    ensures run[i].cpus[d].on != Some(p) && !(run[i].cpus[d].on.None? && run[i].cpus[d].spc == Switch(p))
  {
    hide Inv;
    RunInv(run, i);
    AtCpu(run[i], c);
    AtCpu(run[i], d);
  }

  /** A process in state RUNNING is on exactly one CPU or about to be switched to by exactly one. */
  lemma RunningSomewhere(run: seq<State>, i: nat, p: nat)
    requires IsRun(run) && i < |run| && p < |run[i].procs| && run[i].procs[p].state.Running?
    ensures exists c :: 0 <= c < |run[i].cpus| && BusyWith(run[i].cpus[c], p)
    ensures forall c, d :: 0 <= c < |run[i].cpus| && 0 <= d < |run[i].cpus| && BusyWith(run[i].cpus[c], p) && BusyWith(run[i].cpus[d], p) ==> c == d
  {
    hide Inv;
    RunInv(run, i);
    var s := run[i];
    AtProc(s, p);
    forall c | 0 <= c < |s.cpus| && BusyWith(s.cpus[c], p) ensures s.procs[p].where == Some(c) { AtCpu(s, c); }
  }

  /** None of the panics in sched can happen: the thread holds its own lock and no other, and has
      left RUNNING. */
  lemma SchedNeverPanics(run: seq<State>, i: nat, c: nat, p: nat)
    requires IsRun(run) && i < |run| && Acts(run[i], c, p) && InSwitch(run[i].procs[p].pc)
    ensures Sized(run[i]) && run[i].plock[p] == Some(c) && !run[i].procs[p].state.Running? && run[i].wlock != Some(c)
    ensures forall k :: 0 <= k < |run[i].plock| && k != p ==> run[i].plock[k] != Some(c)
  {
    hide Inv;
    RunInv(run, i);
    AtProc(run[i], p);
    Runs(run[i], c, p);
  }

  /** p->lock spans the switch: it is held by the CPU when a thread resumes, and still held by it
      when the scheduler gets the CPU back. */
  lemma LockHandedOver(run: seq<State>, i: nat, c: nat)
    requires IsRun(run) && i < |run| && c < |run[i].cpus| && run[i].cpus[c].spc.p < |run[i].plock|
    ensures run[i].cpus[c].on.None? && (run[i].cpus[c].spc.Away? || run[i].cpus[c].spc.Switch?) ==>
      run[i].plock[run[i].cpus[c].spc.p] == Some(c)
  {
    hide Inv;
    RunInv(run, i);
    if run[i].cpus[c].on.None? { OnScheduler(run[i], c); }
  }

  // ---------------------------------------------------------------- parents and children

  /** Nobody's parent is dead: reparent has moved every child before its parent becomes a zombie. */
  lemma ParentsAlive(run: seq<State>, i: nat, k: nat)
    requires IsRun(run) && i < |run| && k < |run[i].procs|
    ensures var s := run[i];
      && (s.procs[k].parent.Some? ==> s.procs[k].parent.value < |s.procs| && Live(s.procs[s.procs[k].parent.value].state))
      && ((Live(s.procs[k].state) || s.procs[k].state.Zombie?) && k != s.init ==> s.procs[k].parent.Some?)
  {
    hide Inv;
    RunInv(run, i);
    AtProc(run[i], k);
  }

  /** No lost wakeup: whenever wait_lock is free, nobody who sleeps in wait, or has released
      wait_lock in order to, has a zombie child. */
  lemma NoLostWakeup(run: seq<State>, i: nat, p: nat)
    requires IsRun(run) && i < |run| && p < |run[i].procs| && run[i].wlock.None?
    requires var x := run[i].procs[p]; x.pc.WaitSleep2? || (x.pc.SleepSched? && x.pc.inWait) || (x.state.Sleeping? && x.pc.SleepBack? && x.pc.inWait)
    ensures forall k :: 0 <= k < |run[i].procs| && run[i].procs[k].parent == Some(p) ==> !run[i].procs[k].state.Zombie?
  {
    hide Inv;
    RunInv(run, i);
    var s := run[i];
    AtProc(s, p);
    assert Committed(s, p);
    if HasZombie(s, p) {
      Unmissed(s, p);
    }
  }

  lemma Unmissed(s: State, p: nat)
    requires Inv(s) && Committed(s, p) && HasZombie(s, p)
    ensures s.wlock.Some?
  {
    hide MakersOk, PidsOk, ParentsOk, HolderAt, Committed, HasZombie, ProcsOk, CpusOk, LocksOk;
    var r :| 0 <= r < |s.procs| && Rousing(s, r);
    WaitHolder(s, r);
  }

  /** Each exit status is handed out at most once, it is the one passed to exit, and until then a
      zombie keeps it. */
  lemma OneReapPerExit(run: seq<State>, i: nat)
    requires IsRun(run) && i < |run|
    ensures forall j, k :: 0 <= j < k < |run[i].reaps| ==> run[i].reaps[j].pid != run[i].reaps[k].pid
    ensures forall j, k :: 0 <= j < k < |run[i].exits| ==> run[i].exits[j].pid != run[i].exits[k].pid
    ensures forall j :: 0 <= j < |run[i].reaps| ==> Exit(run[i].reaps[j].pid, run[i].reaps[j].status) in run[i].exits
    ensures forall j :: 0 <= j < |run[i].exits| ==> Kept(run[i], run[i].exits[j])
  {
    hide CpusOk, ProcsOk, LocksOk, ParentsOk, MakersOk, WaitsOk;
    RunInv(run, i);
  }

  /** A status is collected by the parent at that time, from a zombie that no CPU is still running. */
  lemma ReapedByParent(run: seq<State>, i: nat)
    requires IsRun(run) && i + 1 < |run| && run[i + 1].reaps != run[i].reaps
    ensures Collected(run[i], run[i + 1])
  {
    hide Inv;
    RunInv(run, i);
    var s, t := run[i], run[i + 1];
    assert Next(s, t);
    var c, a :| Moves(s, c, a, t);
    ReapStep(s, c, a);
  }

  ghost predicate Collected(s: State, t: State) { exists k, r :: Collects(s, t, k, r) }

  ghost predicate Collects(s: State, t: State, k: nat, r: Reap) {
    && t.reaps == s.reaps + [r] && k < |s.procs| && k < |t.procs| && s.procs[k].state.Zombie? && s.procs[k].parent == Some(r.who) && s.procs[k].where.None?
    && r.pid == s.procs[k].pid && r.status == s.procs[k].xstate && t.procs[k].state.Unused?
  }

  lemma ThreadReaps(s: State, c: nat, p: nat, a: Act)
    requires Sized(s) && c < |s.cpus| && p < |s.procs| && ThreadEnabled(s, p, a) && !a.Timer?
    ensures InFork(s.procs[p].pc) ==> StepFork(s, c, p, a).reaps == s.reaps
    ensures InExit(s.procs[p].pc) && a.Go? ==> StepExit(s, c, p).reaps == s.reaps
    ensures StepOther(s, c, p, a).reaps == s.reaps
    ensures InSwitch(s.procs[p].pc) ==> SwitchOut(s, c, p).reaps == s.reaps
  {
    hide Plain;
  }

  lemma WaitReaps(s: State, c: nat, p: nat, a: Act)
    requires Sized(s) && p < |s.procs| && InWait(s.procs[p].pc) && ThreadEnabled(s, p, a) && !a.Timer?
    requires StepWait(s, c, p, a).reaps != s.reaps
    ensures s.procs[p].pc.WaitHave? && !a.Fail? && s.procs[p].pc.k < |s.procs| && s.procs[s.procs[p].pc.k].state.Zombie?
  {
    hide Plain;
  }

  lemma OnlyWaitReaps(s: State, c: nat, a: Act)
    requires Enabled(s, c, a) && Step(s, c, a).reaps != s.reaps
    ensures s.cpus[c].on.Some? && s.procs[s.cpus[c].on.value].pc.WaitHave? && !a.Fail? && !a.Timer?
    ensures s.procs[s.cpus[c].on.value].pc.k < |s.procs| && s.procs[s.procs[s.cpus[c].on.value].pc.k].state.Zombie?
  {
    hide Plain, StepFork, StepExit, StepWait, StepOther, SwitchOut;
    if s.cpus[c].on.Some? && !a.Timer? {
      var p := s.cpus[c].on.value;
      ThreadReaps(s, c, p, a);
      if InWait(s.procs[p].pc) { WaitReaps(s, c, p, a); }
    }
  }

  lemma ReapStep(s: State, c: nat, a: Act)
    requires Inv(s) && Enabled(s, c, a) && Step(s, c, a).reaps != s.reaps
    ensures Collected(s, Step(s, c, a))
  {
    hide Inv, HeldAt;
    var t := Step(s, c, a);
    var p := s.cpus[c].on.value;
    OnlyWaitReaps(s, c, a);
    var k := s.procs[p].pc.k;
    AtProc(s, p);
    ReapPlaced(s, t, c, p, k, s.procs[p].pc.kids);
    LockedAway(s, c, p, k);
    assert Collects(s, t, k, Reap(p, s.procs[k].pid, s.procs[k].xstate));
  }

  // ---------------------------------------------------------------- no deadlock among the locks

  datatype Wish = Nothing | Wait | Entry(k: nat)

  /** The spinlock a thread or a scheduler is about to acquire. */
  function ThreadWish(s: State, p: nat): Wish
    requires p < |s.procs|
  {
    var n := |s.procs|;
    match s.procs[p].pc
    case ForkScan(k) => if k < n then Entry(k) else Nothing
    case ForkParent(_) => Wait
    case ForkReady(k) => Entry(k)
    case ExitStart(_) => Wait
    case Wake(_, k, _) => if k < n && k != p then Entry(k) else Nothing
    case ExitLock(_) => Entry(p)
    case WaitStart => Wait
    case WaitScan(k, _) => if k < n && s.procs[k].parent == Some(p) then Entry(k) else Nothing
    case WaitSleep0 => Entry(p)
    case Sleep0(_) => Entry(p)
    case KillScan(_, k) => if k < n then Entry(k) else Nothing
    case Yield0(_) => Entry(p)
    case _ => Nothing
  }

  function WishOf(s: State, c: nat): Wish
    requires c < |s.cpus|
  {
    var u := s.cpus[c];
    if u.on.Some? then if u.on.value < |s.procs| then ThreadWish(s, u.on.value) else Nothing
    else if u.spc.Look? then Entry(u.spc.p) else Nothing
  }

  /** CPU c spins on a lock that CPU d holds. */
  ghost predicate Spins(s: State, c: nat, d: nat) {
    c < |s.cpus| && d < |s.cpus| &&
    match WishOf(s, c)
    case Nothing => false
    case Wait => s.wlock == Some(d)
    case Entry(k) => k < |s.plock| && s.plock[k] == Some(d)
  }

  function Rank(w: Wish): nat { match w case Nothing => 0 case Entry(_) => 1 case Wait => 2 }

  /** wait_lock comes before every p->lock, and nobody asks for a lock while holding a p->lock. */
  lemma SpinsGoDown(s: State, c: nat, d: nat)
    requires Inv(s) && Spins(s, c, d)
    ensures Rank(WishOf(s, d)) < Rank(WishOf(s, c))
  {
    hide Inv;
    AtCpu(s, d);
    if s.cpus[d].on.Some? { Runs(s, d, s.cpus[d].on.value); } else { OnScheduler(s, d); }
  }

  /** No chain of CPUs that spin on each other's locks closes. */
  lemma {:induction false} NoCyclicWait(run: seq<State>, i: nat, chain: seq<nat>)
    requires IsRun(run) && i < |run| && |chain| >= 2 && forall k :: 0 <= k < |chain| - 1 ==> Spins(run[i], chain[k], chain[k + 1])
    ensures chain[0] != chain[|chain| - 1]
  {
    hide Inv;
    RunInv(run, i);
    ChainDown(run[i], chain);
  }

  lemma {:induction false} ChainDown(s: State, chain: seq<nat>)
    requires Inv(s) && |chain| >= 2 && forall k :: 0 <= k < |chain| - 1 ==> Spins(s, chain[k], chain[k + 1])
    ensures chain[0] < |s.cpus| && chain[|chain| - 1] < |s.cpus|
    ensures Rank(WishOf(s, chain[|chain| - 1])) < Rank(WishOf(s, chain[0]))
    decreases |chain|
  {
    hide Inv, WishOf, Rank;
    assert Spins(s, chain[0], chain[1]);
    SpinsGoDown(s, chain[0], chain[1]);
    if |chain| > 2 {
      var rest := chain[1..];
      forall k | 0 <= k < |rest| - 1 ensures Spins(s, rest[k], rest[k + 1]) {
        assert rest[k] == chain[k + 1] && rest[k + 1] == chain[k + 2];
      }
      ChainDown(s, rest);
    }
  }
}
