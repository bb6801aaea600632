/** System calls of the process table come to an end (xv6-lab-syscalls/proc.c): every step of a thread brings
    it nearer to the end of its call, except that wait starts over when it is woken and that an
    interrupted thread goes on where it was. What is left is waiting for locks, for the CPU and in sleep. */
module ProcessProgress {
  import opened Common
  import opened Processes
  import opened ProcessProof
  import opened ProcessRuns
  import opened ProcessCalls

  /** How far a thread is from the end of its call, compared from left to right. */
  datatype Left = Left(phase: nat, entries: int, inner: int)

  predicate Less(x: Left, y: Left) {
    || x.phase < y.phase
    || (x.phase == y.phase && x.entries < y.entries && 0 <= y.entries)
    || (x.phase == y.phase && x.entries == y.entries && x.inner < y.inner && 0 <= y.inner)
  }

  function WakeLeft(n: nat, ret: Ret, inner: int): Left {
    match ret
    case RetUser => Left(10, 0, inner)
    case RetExit(_) => Left(58, 0, inner)
    case RetReparent(j, _) => Left(59, 2 * (n - j) - 1, inner)
  }

  /** For a table of n entries. */
  function LeftAt(n: nat, pc: Pc): Left {
    match pc
    case ForkRet => Left(1, 0, 0)
    case ForkRun(_) => Left(30, 0, 0)
    case ForkReady(_) => Left(31, 0, 0)
    case ForkLink(_) => Left(32, 0, 0)
    case ForkParent(_) => Left(33, 0, 0)
    case ForkFill(_) => Left(34, 0, 0)
    case ForkScan(k) => Left(35, 2 * (n - k) + 1, 0)
    case ForkHave(k) => Left(35, 2 * (n - k), 0)
    case ExitSched => Left(54, 0, 0)
    case ExitUnlock => Left(55, 0, 0)
    case ExitDie(_) => Left(56, 0, 0)
    case ExitLock(_) => Left(57, 0, 0)
    case Wake(_, k, ret) => WakeLeft(n, ret, 2 * (n - k) + 1)
    case WakeHave(_, k, ret) => WakeLeft(n, ret, 2 * (n - k))
    case Reparent(j, _) => Left(59, 2 * (n - j), 0)
    case ExitStart(_) => Left(60, 0, 0)
    case WaitLeave => Left(40, 0, 0)
    case SleepBack(inWait) => if inWait then Left(41, 0, 0) else Left(20, 0, 0)
    case SleepSched(inWait) => if inWait then Left(42, 0, 0) else Left(21, 0, 0)
    case WaitSleep2 => Left(43, 0, 0)
    case WaitSleep1 => Left(44, 0, 0)
    case WaitSleep0 => Left(45, 0, 0)
    case WaitScan(k, _) => Left(46, 2 * (n - k) + 1, 0)
    case WaitHave(k, _) => Left(46, 2 * (n - k), 0)
    case WaitStart => Left(47, 0, 0)
    case Sleep2(_) => Left(22, 0, 0)
    case Sleep0(_) => Left(23, 0, 0)
    case KillScan(_, k) => Left(25, 2 * (n - k) + 1, 0)
    case KillHave(_, k) => Left(25, 2 * (n - k), 0)
    case Yield0(_) => Left(73, 0, 0)
    case Yield1(_) => Left(72, 0, 0)
    case Yield2(_) => Left(71, 0, 0)
    case YieldBack(_) => Left(70, 0, 0)
    case User => Left(0, 0, 0)
    case Gone => Left(0, 0, 0)
    case Panicked => Left(0, 0, 0)
  }

  /** The step leads on. */
  predicate LeadsOn(n: nat, pc: Pc, pc': Pc) {
    || Less(LeftAt(n, pc'), LeftAt(n, pc))
    || (pc == SleepBack(true) && pc' == WaitStart)
    || (pc.YieldBack? && pc' == pc.back)
  }

  lemma ForkLeads(s: State, c: nat, p: nat, a: Act)
    requires Sized(s) && Acts(s, c, p) && InFork(s.procs[p].pc) && ThreadEnabled(s, p, a) && !a.Timer? && MakeOk(s, p) && BoundsOk(s, p)
    ensures LeadsOn(|s.procs|, s.procs[p].pc, StepFork(s, c, p, a).procs[p].pc)
  {
    hide Plain;
  }

  lemma ExitLeads(s: State, c: nat, p: nat)
    requires Sized(s) && Acts(s, c, p) && InExit(s.procs[p].pc) && ThreadEnabled(s, p, Go) && BoundsOk(s, p) && (HasWait(s.procs[p].pc) ==> HolderOk(s, p))
    ensures LeadsOn(|s.procs|, s.procs[p].pc, StepExit(s, c, p).procs[p].pc)
  {
    hide Plain;
  }

  lemma WaitLeads(s: State, c: nat, p: nat, a: Act)
    requires Sized(s) && Acts(s, c, p) && InWait(s.procs[p].pc) && ThreadEnabled(s, p, a) && !a.Timer? && BoundsOk(s, p) && s.procs[p].state.Running?
    ensures LeadsOn(|s.procs|, s.procs[p].pc, StepWait(s, c, p, a).procs[p].pc)
  {
    hide Plain;
  }

  lemma SwitchLeads(s: State, c: nat, p: nat)
    requires Acts(s, c, p) && InSwitch(s.procs[p].pc)
    ensures LeadsOn(|s.procs|, s.procs[p].pc, SwitchOut(s, c, p).procs[p].pc)
  {
  }

  lemma OtherLeads(s: State, c: nat, p: nat, a: Act)
    requires Sized(s) && Acts(s, c, p) && ThreadEnabled(s, p, a) && !a.Timer? && BoundsOk(s, p) && !s.procs[p].pc.User?
    requires !InFork(s.procs[p].pc) && !InExit(s.procs[p].pc) && !InWait(s.procs[p].pc) && !InSwitch(s.procs[p].pc)
    ensures LeadsOn(|s.procs|, s.procs[p].pc, StepOther(s, c, p, a).procs[p].pc)
  {
    hide Plain;
  }

  /** Every step of a thread in a system call, interrupts aside, leads on; nobody else moves it. */
  lemma CallsEnd(s: State, c: nat, a: Act, p: nat)
    requires Inv(s) && Enabled(s, c, a) && p < |s.procs| && Live(s.procs[p].state) && !s.procs[p].pc.User? && !a.Timer?
    ensures |Step(s, c, a).procs| == |s.procs|
    ensures if s.cpus[c].on == Some(p) then LeadsOn(|s.procs|, s.procs[p].pc, Step(s, c, a).procs[p].pc) else Step(s, c, a).procs[p].pc == s.procs[p].pc
  {
    hide Inv, Plain, StepFork, StepExit, StepWait, StepOther, SwitchOut, HeldAt, HasWait, LeadsOn;
    SameSize(s, c, a);
    if s.cpus[c].on != Some(p) {
      hide Step;
      Bystander(s, c, a, p);
    } else {
      AtProc(s, p);
      Runs(s, c, p);
      var pc := s.procs[p].pc;
      if InFork(pc) { ForkLeads(s, c, p, a); }
      else if InExit(pc) { ExitLeads(s, c, p); }
      else if InWait(pc) { InWaitRuns(s, p); WaitLeads(s, c, p, a); }
      else if InSwitch(pc) { SwitchLeads(s, c, p); }
      else { OtherLeads(s, c, p, a); }
    }
  }
}
