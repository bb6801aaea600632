/** The loops of fork, kill and wakeup over the process table, the status that exit records, and the
    order in which the scheduler visits the table, over every run (xv6-lab-syscalls/proc.c). */
module ProcessScans {
  import opened Common
  import opened Processes
  import opened ProcessProof
  import opened ProcessRuns
  import opened ProcessCalls

  // ---------------------------------------------------------------- own steps

  /** The thread of p moves from pc to pc' by its own step (an interrupt only wraps its place). */
  lemma OwnPc(s: State, c: nat, a: Act, p: nat)
    requires Inv(s) && Enabled(s, c, a) && Acts(s, c, p)
    ensures |Step(s, c, a).procs| == |s.procs| && OwnMove(s, a, Step(s, c, a), p)
  {
    hide Inv, Plain, StepFork, StepExit, StepWait, StepOther, SwitchOut, HeldAt, HasWait, OwnMove;
    SameSize(s, c, a);
    AtProc(s, p);
    Runs(s, c, p);
    var pc := s.procs[p].pc;
    if a.Timer? { TimerMove(s, p); }
    else if InFork(pc) { ForkMove(s, c, p, a); }
    else if InExit(pc) { ExitMove(s, c, p); }
    else if InWait(pc) { WaitMove(s, c, p, a); }
    else if InSwitch(pc) { SwitchMove(s, c, p); }
    else { OtherMove(s, c, p, a); }
  }

  datatype What = Forking | Killing(pid: nat) | Waking(ch: Chan, ret: Ret)
  datatype Scan = NoScan | Scan(what: What, k: nat)

  /** Which loop over the table the thread is in, and how far. */
  function ScanOf(pc: Pc): Scan {
    match Inner(pc)
    case ForkScan(k) => Scan(Forking, k)
    case ForkHave(k) => Scan(Forking, k)
    case KillScan(pid, k) => Scan(Killing(pid), k)
    case KillHave(pid, k) => Scan(Killing(pid), k)
    case Wake(ch, k, ret) => Scan(Waking(ch, ret), k)
    case WakeHave(ch, k, ret) => Scan(Waking(ch, ret), k)
    case _ => NoScan
  }

  /** What was so when the loop went past entry i: under its lock, allocproc found it in use, kill found
      another process, wakeup left nobody asleep on the channel (it skips its own entry). */
  ghost predicate Passed(s: State, t: State, p: nat, what: What, i: nat) {
    && p < |s.procs| == |t.procs| && i < |s.procs| && i < |s.plock| && s.procs[p].where.Some?
    && match what
       case Forking => s.procs[p].pc == ForkHave(i) && s.plock[i] == s.procs[p].where && !s.procs[i].state.Unused?
       case Killing(pid) => s.procs[p].pc == KillHave(pid, i) && s.plock[i] == s.procs[p].where && s.procs[i].pid != pid
       case Waking(ch, ret) =>
         || i == p
         || (s.procs[p].pc == WakeHave(ch, i, ret) && s.plock[i] == s.procs[p].where && !(t.procs[i].state.Sleeping? && t.procs[i].chan == ch))
  }

  /** The status an exiting thread carries. */
  function StatusOf(pc: Pc): Option<int> {
    match Inner(pc)
    case ExitStart(st) => Some(st)
    case Reparent(_, st) => Some(st)
    case Wake(_, _, ret) => (match ret case RetReparent(_, st) => Some(st) case RetExit(st) => Some(st) case RetUser => None)
    case WakeHave(_, _, ret) => (match ret case RetReparent(_, st) => Some(st) case RetExit(st) => Some(st) case RetUser => None)
    case ExitLock(st) => Some(st)
    case ExitDie(st) => Some(st)
    case _ => None
  }

  predicate InForkCall(pc: Pc) { InFork(Inner(pc)) }

  /** fork returns: the table was full, or memory ran out and the entry is free again, or the child is
      runnable, a child of p, with a number nobody else has. */
  ghost predicate ForkEnds(s: State, a: Act, t: State, p: nat) {
    && p < |s.procs| == |t.procs|
    && match s.procs[p].pc
       case ForkScan(k) => k >= |s.procs| && t.procs[p].pc.User?
       case ForkFill(k) => a.Fail? && k < |s.procs| && t.procs[k] == Freed(s.procs[k])
       case ForkRun(k) => k < |s.procs| && k != p && t.procs[k] == s.procs[k].(state := Runnable) && s.procs[k].parent == Some(p) && s.procs[k].pc.ForkRet?
       case _ => false
  }

  ghost predicate OwnMove(s: State, a: Act, t: State, p: nat) {
    p < |s.procs| == |t.procs| && t.procs[p].pid == s.procs[p].pid && ScanMoves(s, t, p) && StatusMoves(s, a, t, p) && CallMoves(s, a, t, p)
  }

  /** A loop starts at entry 0 and goes on by one, past an entry it has looked at. */
  ghost predicate ScanMoves(s: State, t: State, p: nat)
    requires p < |s.procs| == |t.procs|
  {
    var u, v := ScanOf(s.procs[p].pc), ScanOf(t.procs[p].pc);
    v.Scan? ==> v.k == 0 || (u.Scan? && u.what == v.what && (v.k == u.k || (v.k == u.k + 1 && Passed(s, t, p, u.what, u.k))))
  }

  /** exit carries its argument to the record it leaves, and does not return. */
  ghost predicate StatusMoves(s: State, a: Act, t: State, p: nat)
    requires p < |s.procs| == |t.procs|
  {
    var u, v := StatusOf(s.procs[p].pc), StatusOf(t.procs[p].pc);
    && (v.Some? ==> v == u || (s.procs[p].pc.User? && a.CallExit? && v == Some(a.st)))
    && (if t.exits == s.exits then u.Some? ==> v == u
        else u.Some? && t.exits == s.exits + [Exit(s.procs[p].pid, u.value)] && t.procs[p].state.Zombie? && t.procs[p].xstate == u.value)
  }

  /** fork returns only as it should, and an interrupt is transparent. */
  ghost predicate CallMoves(s: State, a: Act, t: State, p: nat)
    requires p < |s.procs| == |t.procs|
  {
    var pc, pc' := s.procs[p].pc, t.procs[p].pc;
    && (InForkCall(pc) && !InForkCall(pc') ==> pc'.User? && ForkEnds(s, a, t, p))
    && (a.Timer? || pc.Yield0? || pc.Yield1? || pc.Yield2? || pc.YieldBack? ==> Inner(pc') == Inner(pc)) && (a.Timer? ==> pc'.Yield0?)
    && (pc.User? && !a.Timer? ==> Entered(s, a, p, pc'))
    && SleepMoves(pc, t.procs[p], p)
  }

  /** A system call starts with the argument it was given; only exit of init panics. */
  predicate Entered(s: State, a: Act, p: nat, pc: Pc) {
    match a
    case CallFork => InForkCall(pc)
    case CallExit(st) => if p == s.init then pc.Panicked? else StatusOf(pc) == Some(st)
    case CallWait => WaitCall(pc)
    case CallKill(pid) => ScanOf(pc) == Scan(Killing(pid), 0)
    case CallSleep(n) => pc == Sleep0(n)
    case CallWakeup(n) => ScanOf(pc) == Scan(Waking(Other(n), RetUser), 0)
    case _ => true
  }

  /** sleep puts its caller to sleep on the channel it names, and returns only after the caller has been
      switched out and in again. */
  predicate SleepMoves(pc: Pc, y: Proc, p: nat) {
    && (Inner(pc).Sleep0? ==> Inner(y.pc) == Inner(pc) || y.pc == Sleep2(Inner(pc).n))
    && (pc.Sleep2? ==> y.pc == SleepSched(false) && y.state.Sleeping? && y.chan == Other(pc.n))
    && (pc.WaitSleep2? ==> y.pc == SleepSched(true) && y.state.Sleeping? && y.chan == OfProc(p))
    && (pc.SleepSched? ==> y.pc == SleepBack(pc.inWait))
    && (pc.SleepBack? ==> y.pc == if pc.inWait then WaitStart else User)
  }

  lemma TimerMove(s: State, p: nat)
    requires p < |s.procs| && Plain(s.procs[p].pc)
    ensures OwnMove(s, Timer, At(s, p, Yield0(s.procs[p].pc)), p)
  {
    PlainInner(s.procs[p].pc);
    hide Plain;
  }

  lemma PlainInner(pc: Pc)
    requires Plain(pc)
    ensures Inner(pc) == pc && !pc.Yield0? && !pc.Yield1? && !pc.Yield2? && !pc.YieldBack?
  {
  }

  lemma ForkMove(s: State, c: nat, p: nat, a: Act)
    requires Sized(s) && Acts(s, c, p) && InFork(s.procs[p].pc) && ThreadEnabled(s, p, a) && !a.Timer? && MakeOk(s, p) && BoundsOk(s, p)
    requires s.procs[p].where == Some(c) && s.procs[p].state.Running? && forall i :: 0 <= i < |s.plock| ==> (s.plock[i] == Some(c) <==> HeldAt(s.procs[p].pc, p) == i)
    ensures OwnMove(s, a, StepFork(s, c, p, a), p)
  {
    hide Plain;
  }

  lemma ExitMove(s: State, c: nat, p: nat)
    requires Sized(s) && Acts(s, c, p) && InExit(s.procs[p].pc) && ThreadEnabled(s, p, Go) && BoundsOk(s, p)
    requires s.procs[p].where == Some(c) && forall i :: 0 <= i < |s.plock| ==> (s.plock[i] == Some(c) <==> HeldAt(s.procs[p].pc, p) == i)
    ensures OwnMove(s, Go, StepExit(s, c, p), p)
  {
    hide Plain, ScanMoves, StatusMoves, CallMoves, StepExit, ThreadEnabled, HeldAt;
    ExitScan(s, c, p);
    ExitStatus(s, c, p);
    ExitCall(s, c, p);
  }

  lemma ExitScan(s: State, c: nat, p: nat)
    requires Sized(s) && Acts(s, c, p) && InExit(s.procs[p].pc) && ThreadEnabled(s, p, Go)
    requires s.procs[p].where == Some(c) && forall i :: 0 <= i < |s.plock| ==> (s.plock[i] == Some(c) <==> HeldAt(s.procs[p].pc, p) == i)
    ensures |StepExit(s, c, p).procs| == |s.procs| && ScanMoves(s, StepExit(s, c, p), p)
  {
    hide Plain;
  }

  lemma ExitStatus(s: State, c: nat, p: nat)
    requires Sized(s) && Acts(s, c, p) && InExit(s.procs[p].pc) && ThreadEnabled(s, p, Go) && BoundsOk(s, p)
    ensures |StepExit(s, c, p).procs| == |s.procs| && StatusMoves(s, Go, StepExit(s, c, p), p) && StepExit(s, c, p).procs[p].pid == s.procs[p].pid
  {
    hide Plain;
  }

  lemma ExitCall(s: State, c: nat, p: nat)
    requires Sized(s) && Acts(s, c, p) && InExit(s.procs[p].pc) && ThreadEnabled(s, p, Go)
    ensures |StepExit(s, c, p).procs| == |s.procs| && CallMoves(s, Go, StepExit(s, c, p), p)
  {
    hide Plain;
  }

  lemma WaitMove(s: State, c: nat, p: nat, a: Act)
    requires Sized(s) && Acts(s, c, p) && InWait(s.procs[p].pc) && ThreadEnabled(s, p, a) && !a.Timer? && s.procs[p].state == StateAt(s.procs[p].pc)
    ensures OwnMove(s, a, StepWait(s, c, p, a), p)
  {
    hide Plain, CallMoves, StepWait, ThreadEnabled, ScanOf, StatusOf, Passed;
    WaitScan0(s, c, p, a);
    WaitPid(s, c, p, a);
    WaitCalls(s, c, p, a);
  }

  lemma WaitScan0(s: State, c: nat, p: nat, a: Act)
    requires Sized(s) && Acts(s, c, p) && InWait(s.procs[p].pc) && ThreadEnabled(s, p, a) && !a.Timer?
    ensures var t := StepWait(s, c, p, a); |t.procs| == |s.procs| && ScanOf(t.procs[p].pc).NoScan? && StatusOf(t.procs[p].pc).None? && StatusOf(s.procs[p].pc).None? && t.exits == s.exits
  {
    hide Plain;
  }

  lemma WaitPid(s: State, c: nat, p: nat, a: Act)
    requires Sized(s) && Acts(s, c, p) && InWait(s.procs[p].pc) && ThreadEnabled(s, p, a) && !a.Timer? && s.procs[p].state == StateAt(s.procs[p].pc)
    ensures var t := StepWait(s, c, p, a); |t.procs| == |s.procs| && t.procs[p].pid == s.procs[p].pid
  {
    hide Plain;
  }

  lemma WaitCalls(s: State, c: nat, p: nat, a: Act)
    requires Sized(s) && Acts(s, c, p) && InWait(s.procs[p].pc) && ThreadEnabled(s, p, a) && !a.Timer?
    ensures |StepWait(s, c, p, a).procs| == |s.procs| && CallMoves(s, a, StepWait(s, c, p, a), p)
  {
    hide Plain;
  }

  lemma SwitchMove(s: State, c: nat, p: nat)
    requires Acts(s, c, p) && InSwitch(s.procs[p].pc)
    ensures OwnMove(s, Go, SwitchOut(s, c, p), p)
  {
  }

  lemma OtherMove(s: State, c: nat, p: nat, a: Act)
    requires Sized(s) && Acts(s, c, p) && ThreadEnabled(s, p, a) && !a.Timer? && BoundsOk(s, p)
    requires !InFork(s.procs[p].pc) && !InExit(s.procs[p].pc) && !InWait(s.procs[p].pc) && !InSwitch(s.procs[p].pc)
    requires s.procs[p].where == Some(c) && forall i :: 0 <= i < |s.plock| ==> (s.plock[i] == Some(c) <==> HeldAt(s.procs[p].pc, p) == i)
    ensures OwnMove(s, a, StepOther(s, c, p, a), p)
  {
    if s.procs[p].pc.YieldBack? { PlainInner(s.procs[p].pc.back); }
    hide Plain, ScanMoves, StatusMoves, CallMoves;
    OtherScan(s, c, p, a);
    OtherStatus(s, c, p, a);
    OtherCall(s, c, p, a);
  }

  lemma OtherScan(s: State, c: nat, p: nat, a: Act)
    requires Sized(s) && Acts(s, c, p) && ThreadEnabled(s, p, a) && !a.Timer? && (s.procs[p].pc.YieldBack? ==> Inner(s.procs[p].pc.back) == s.procs[p].pc.back)
    requires !InFork(s.procs[p].pc) && !InExit(s.procs[p].pc) && !InWait(s.procs[p].pc) && !InSwitch(s.procs[p].pc)
    requires s.procs[p].where == Some(c) && forall i :: 0 <= i < |s.plock| ==> (s.plock[i] == Some(c) <==> HeldAt(s.procs[p].pc, p) == i)
    ensures |StepOther(s, c, p, a).procs| == |s.procs| && ScanMoves(s, StepOther(s, c, p, a), p)
  {
    hide Plain;
  }

  lemma OtherStatus(s: State, c: nat, p: nat, a: Act)
    requires Sized(s) && Acts(s, c, p) && ThreadEnabled(s, p, a) && !a.Timer? && (s.procs[p].pc.YieldBack? ==> Inner(s.procs[p].pc.back) == s.procs[p].pc.back)
    requires !InFork(s.procs[p].pc) && !InExit(s.procs[p].pc) && !InWait(s.procs[p].pc) && !InSwitch(s.procs[p].pc)
    ensures |StepOther(s, c, p, a).procs| == |s.procs| && StatusMoves(s, a, StepOther(s, c, p, a), p) && StepOther(s, c, p, a).procs[p].pid == s.procs[p].pid
  {
    hide Plain;
  }

  lemma OtherCall(s: State, c: nat, p: nat, a: Act)
    requires Sized(s) && Acts(s, c, p) && ThreadEnabled(s, p, a) && !a.Timer? && (s.procs[p].pc.YieldBack? ==> Inner(s.procs[p].pc.back) == s.procs[p].pc.back)
    requires !InFork(s.procs[p].pc) && !InExit(s.procs[p].pc) && !InWait(s.procs[p].pc) && !InSwitch(s.procs[p].pc)
    ensures |StepOther(s, c, p, a).procs| == |s.procs| && CallMoves(s, a, StepOther(s, c, p, a), p)
  {
    hide Plain;
  }

  // ---------------------------------------------------------------- runs of the scans

  /** In every run: how a loop over the table has passed entry i. */
  lemma {:induction false} ScanPasses(run: seq<State>, n: nat, p: nat, i: nat) returns (m: nat)
    requires IsRun(run) && n < |run| && p < |run[n].procs| && ScanOf(run[n].procs[p].pc).Scan? && i < ScanOf(run[n].procs[p].pc).k
    ensures m < n && Passed(run[m], run[m + 1], p, ScanOf(run[n].procs[p].pc).what, i)
    ensures forall x :: m <= x <= n ==> p < |run[x].procs| && ScanOf(run[x].procs[p].pc).Scan? && ScanOf(run[x].procs[p].pc).what == ScanOf(run[n].procs[p].pc).what
    decreases n
  {
    hide IsRun, Passed, ScanOf;
    if n == 0 {
      NoScanAtBoot(run, p);
    } else {
      ScanPrev(run, n - 1, p);
      if ScanOf(run[n].procs[p].pc).k == ScanOf(run[n - 1].procs[p].pc).k + 1 && i == ScanOf(run[n - 1].procs[p].pc).k {
        m := n - 1;
      } else {
        m := ScanPasses(run, n - 1, p, i);
      }
    }
  }

  lemma NoScanAtBoot(run: seq<State>, p: nat)
    requires IsRun(run) && p < |run[0].procs|
    ensures ScanOf(run[0].procs[p].pc).NoScan? && StatusOf(run[0].procs[p].pc).None? && run[0].exits == []
  {
    hide Next;
  }

  lemma ScanPrev(run: seq<State>, n: nat, p: nat)
    requires IsRun(run) && n + 1 < |run| && p < |run[n + 1].procs| && ScanOf(run[n + 1].procs[p].pc).Scan? && ScanOf(run[n + 1].procs[p].pc).k > 0
    ensures p < |run[n].procs|
    ensures var u, v := ScanOf(run[n].procs[p].pc), ScanOf(run[n + 1].procs[p].pc);
      u.Scan? && u.what == v.what && (v.k == u.k || (v.k == u.k + 1 && Passed(run[n], run[n + 1], p, u.what, u.k)))
  {
    RunInv(run, n);
    assert Next(run[n], run[n + 1]);
    var c, a :| Moves(run[n], c, a, run[n + 1]);
    hide IsRun, Inv, Passed, ScanOf, Step, Enabled;
    SameSize(run[n], c, a);
    ScanBack(run[n], c, a, p);
  }

  lemma ScanBack(s: State, c: nat, a: Act, p: nat)
    requires Inv(s) && Enabled(s, c, a) && p < |s.procs| && |Step(s, c, a).procs| == |s.procs|
    requires ScanOf(Step(s, c, a).procs[p].pc).Scan? && ScanOf(Step(s, c, a).procs[p].pc).k > 0
    ensures var t := Step(s, c, a); var u, v := ScanOf(s.procs[p].pc), ScanOf(t.procs[p].pc);
      u.Scan? && u.what == v.what && (v.k == u.k || (v.k == u.k + 1 && Passed(s, t, p, u.what, u.k)))
  {
    hide Inv, Step, Passed;
    if s.cpus[c].on == Some(p) { OwnPc(s, c, a, p); } else { OthersPc(s, c, a, p); }
  }

  /** When allocproc gives up, it has found every entry in use, under its lock, during this fork. */
  lemma TableWasFull(run: seq<State>, n: nat, p: nat, i: nat) returns (m: nat)
    requires IsRun(run) && n < |run| && p < |run[n].procs| && run[n].procs[p].pc.ForkScan? && run[n].procs[p].pc.k >= |run[n].procs| && i < |run[n].procs|
    ensures m < n && i < |run[m].procs| && p < |run[m].procs| && run[m].procs[p].pc == ForkHave(i) && !run[m].procs[i].state.Unused?
    ensures forall x :: m <= x <= n ==> p < |run[x].procs| && ScanOf(run[x].procs[p].pc).Scan? && ScanOf(run[x].procs[p].pc).what == Forking
  {
    m := ScanPasses(run, n, p, i);
  }

  /** When kill gives up, it has found every entry to be another process, under its lock, during this
      call. */
  lemma NobodyToKill(run: seq<State>, n: nat, p: nat, i: nat) returns (m: nat)
    requires IsRun(run) && n < |run| && p < |run[n].procs| && run[n].procs[p].pc.KillScan? && run[n].procs[p].pc.k >= |run[n].procs| && i < |run[n].procs|
    ensures m < n && i < |run[m].procs| && p < |run[m].procs| && run[m].procs[p].pc == KillHave(run[n].procs[p].pc.pid, i) && run[m].procs[i].pid != run[n].procs[p].pc.pid
    ensures forall x :: m <= x <= n ==> p < |run[x].procs| && ScanOf(run[x].procs[p].pc).Scan? && ScanOf(run[x].procs[p].pc).what == Killing(run[n].procs[p].pc.pid)
  {
    m := ScanPasses(run, n, p, i);
  }

  /** When wakeup is through, it has left every other entry awake or asleep on another channel. */
  lemma EverybodyWoken(run: seq<State>, n: nat, p: nat, i: nat) returns (m: nat)
    requires IsRun(run) && n < |run| && p < |run[n].procs| && run[n].procs[p].pc.Wake? && run[n].procs[p].pc.k >= |run[n].procs| && i < |run[n].procs| && i != p
    ensures m < n && i < |run[m + 1].procs| && !(run[m + 1].procs[i].state.Sleeping? && run[m + 1].procs[i].chan == run[n].procs[p].pc.chan)
    ensures forall x :: m <= x <= n ==> p < |run[x].procs| && ScanOf(run[x].procs[p].pc).Scan? && ScanOf(run[x].procs[p].pc).what == Waking(run[n].procs[p].pc.chan, run[n].procs[p].pc.ret)
  {
    m := ScanPasses(run, n, p, i);
  }

  /** kill marks the process it finds and ends its sleep. */
  lemma KillMarks(s: State, c: nat, p: nat)
    requires Inv(s) && Acts(s, c, p) && s.procs[p].pc.KillHave? && Enabled(s, c, Go) && s.procs[p].pc.k < |s.procs| && s.procs[s.procs[p].pc.k].pid == s.procs[p].pc.pid
    ensures var k, t := s.procs[p].pc.k, Step(s, c, Go);
      |t.procs| == |s.procs| && t.procs[k].killed && !t.procs[k].state.Sleeping? && t.procs[p].pc.User?
  {
    hide Inv;
    Runs(s, c, p);
  }

  // ---------------------------------------------------------------- the status of exit

  /** At moment m the process with number pid called exit(status). */
  ghost predicate CalledExit(run: seq<State>, m: nat, p: nat, pid: nat, status: int) {
    m + 1 < |run| && p < |run[m].procs| && run[m].procs[p].pid == pid && run[m].procs[p].pc.User? && CallsExit(run[m], p, status, run[m + 1])
  }

  ghost predicate CallsExit(s: State, p: nat, status: int, t: State) { exists c :: ExitMoves(s, c, p, status, t) }

  ghost predicate ExitMoves(s: State, c: nat, p: nat, status: int, t: State) {
    c < |s.cpus| && s.cpus[c].on == Some(p) && Moves(s, c, CallExit(status), t)
  }

  /** In every run an exiting thread carries the argument of its call. */
  lemma {:induction false} CarriesStatus(run: seq<State>, n: nat, p: nat) returns (m: nat)
    requires IsRun(run) && n < |run| && p < |run[n].procs| && StatusOf(run[n].procs[p].pc).Some?
    ensures m < n && CalledExit(run, m, p, run[n].procs[p].pid, StatusOf(run[n].procs[p].pc).value)
    decreases n
  {
    hide IsRun, CalledExit, StatusOf;
    if n == 0 {
      NoScanAtBoot(run, p);
    } else {
      var now := StatusPrev(run, n - 1, p);
      if now { m := n - 1; } else { m := CarriesStatus(run, n - 1, p); }
    }
  }

  lemma StatusPrev(run: seq<State>, n: nat, p: nat) returns (now: bool)
    requires IsRun(run) && n + 1 < |run| && p < |run[n + 1].procs| && StatusOf(run[n + 1].procs[p].pc).Some?
    ensures p < |run[n].procs| && run[n].procs[p].pid == run[n + 1].procs[p].pid
    ensures now ==> CalledExit(run, n, p, run[n].procs[p].pid, StatusOf(run[n + 1].procs[p].pc).value)
    ensures !now ==> StatusOf(run[n].procs[p].pc) == StatusOf(run[n + 1].procs[p].pc)
  {
    RunInv(run, n);
    RunInv(run, n + 1);
    assert Next(run[n], run[n + 1]);
    var c, a :| Moves(run[n], c, a, run[n + 1]);
    hide IsRun, Inv, StatusOf, Step, Enabled;
    SameSize(run[n], c, a);
    now := StatusBack(run[n], c, a, p, run[n + 1]);
  }

  lemma StatusBack(s: State, c: nat, a: Act, p: nat, t: State) returns (now: bool)
    requires Inv(s) && Moves(s, c, a, t) && p < |s.procs| == |t.procs| && StatusOf(t.procs[p].pc).Some?
    ensures t.procs[p].pid == s.procs[p].pid
    ensures now ==> s.procs[p].pc.User? && ExitMoves(s, c, p, StatusOf(t.procs[p].pc).value, t)
    ensures !now ==> StatusOf(s.procs[p].pc) == StatusOf(t.procs[p].pc)
  {
    hide Inv, Step;
    if s.cpus[c].on == Some(p) {
      OwnPc(s, c, a, p);
      now := StatusOf(s.procs[p].pc) != StatusOf(t.procs[p].pc);
      hide StatusOf;
    } else {
      OthersPc(s, c, a, p);
      ExitingLives(s, p);
      Bystander(s, c, a, p);
      now := false;
    }
  }

  lemma ExitingLives(s: State, p: nat)
    requires Inv(s) && p < |s.procs| && StatusOf(s.procs[p].pc).Some?
    ensures Live(s.procs[p].state)
  {
    hide MakersOk, WaitsOk, PidsOk, ParentsOk, LocksOk;
    assert ProcOk(s, p) && BoundsOk(s, p);
  }

  /** In every run each recorded status is the one its process passed to exit; with OneReapPerExit, so
      is each status that wait hands out. */
  lemma {:induction false} StatusIsArgument(run: seq<State>, n: nat, i: nat) returns (m: nat, p: nat)
    requires IsRun(run) && n < |run| && i < |run[n].exits|
    ensures m < n && CalledExit(run, m, p, run[n].exits[i].pid, run[n].exits[i].status)
    decreases n
  {
    hide CalledExit, StatusOf, Inv;
    m, p := 0, 0;
    if n > 0 {
      RunInv(run, n - 1);
      assert Next(run[n - 1], run[n]);
      var c, a :| Moves(run[n - 1], c, a, run[n]);
      hide IsRun, Next, Step, Enabled;
      p := ExitsGrow(run[n - 1], c, a);
      if i < |run[n - 1].exits| {
        m, p := StatusIsArgument(run, n - 1, i);
      } else {
        m := CarriesStatus(run, n - 1, p);
      }
    }
  }

  lemma ExitsGrow(s: State, c: nat, a: Act) returns (p: nat)
    requires Inv(s) && Enabled(s, c, a)
    ensures Step(s, c, a).exits == s.exits ||
      (p < |s.procs| && StatusOf(s.procs[p].pc).Some? && Step(s, c, a).exits == s.exits + [Exit(s.procs[p].pid, StatusOf(s.procs[p].pc).value)])
  {
    hide Inv, StatusOf;
    if s.cpus[c].on.Some? {
      p := s.cpus[c].on.value;
      hide Step;
      OwnPc(s, c, a, p);
    } else {
      p := 0;
    }
  }

  // ---------------------------------------------------------------- the scheduler

  /** The scheduler of CPU c goes round the table: it leaves an entry only after it has locked it, and
      either found it not runnable or switched to it and got the CPU back. */
  ghost predicate GoesRound(s: State, c: nat, t: State, k: nat) {
    && c < |s.cpus| == |t.cpus| && k < |s.procs| == |t.procs| && k < |s.plock| && t.cpus[c] != s.cpus[c]
    && (t.cpus[c].spc.p != k || t.cpus[c].spc.Look? ==> s.cpus[c].spc.Done? && t.cpus[c].spc == Look(if k + 1 == |s.procs| then 0 else k + 1))
    && (t.cpus[c].spc.Done? ==> s.cpus[c].spc.Away? || (s.cpus[c].spc.Have? && s.plock[k] == Some(c) && !s.procs[k].state.Runnable?))
    && (s.cpus[c].spc.Have? && s.procs[k].state.Runnable? ==> t.cpus[c].spc == Switch(k) && t.procs[k].state.Running? && t.cpus[c].proc == Some(k))
    && (t.cpus[c].on.Some? <==> s.cpus[c].spc.Switch?) && (s.cpus[c].spc.Switch? ==> t.cpus[c].on == Some(k) && t.procs == s.procs)
  }

  lemma SchedulerOrder(s: State, c: nat)
    requires Inv(s) && c < |s.cpus| && s.cpus[c].on.None? && Enabled(s, c, Go)
    ensures GoesRound(s, c, Step(s, c, Go), s.cpus[c].spc.p)
  {
    hide Inv, GoesRound, StepSched;
    OnScheduler(s, c);
    RoundStep(s, c);
  }

  lemma RoundStep(s: State, c: nat)
    requires Sized(s) && c < |s.cpus| && SchedEnabled(s, c) && s.cpus[c].on.None?
    requires forall i :: 0 <= i < |s.plock| ==> (s.plock[i] == Some(c) <==> SchedHeld(s.cpus[c].spc) == i)
    ensures GoesRound(s, c, StepSched(s, c), s.cpus[c].spc.p)
  {
  }
}
