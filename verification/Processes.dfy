/** The process table of xv6-lab-syscalls/proc.c as a step system over any number of CPUs and
    processes: fork, exit, reparent, wait, sleep, wakeup, kill, yield and the scheduler. A step is one
    lock operation, one test or update of a table entry made under the locks, or one swtch. */
module Processes {
  import opened Common

  datatype ProcState = Unused | Used | Sleeping | Runnable | Running | Zombie

  datatype Chan = NoChan | OfProc(q: nat) | Other(n: nat)

  /** Where wakeup returns to: the loop of reparent, the rest of exit, or the caller. */
  datatype Ret = RetReparent(j: nat, st: int) | RetExit(st: int) | RetUser

  /** Where the kernel thread of a process is. An interrupt may call yield at any point where no
      lock is held; back is the interrupted place. */
  datatype Pc =
    | User
    | ForkRet
    | ForkScan(k: nat)
    | ForkHave(k: nat)
    | ForkFill(k: nat)
    | ForkParent(k: nat)
    | ForkLink(k: nat)
    | ForkReady(k: nat)
    | ForkRun(k: nat)
    | ExitStart(st: int)
    | Reparent(j: nat, st: int)
    | Wake(chan: Chan, k: nat, ret: Ret)
    | WakeHave(chan: Chan, k: nat, ret: Ret)
    | ExitLock(st: int)
    | ExitDie(st: int)
    | ExitUnlock
    | ExitSched
    | Gone
    | WaitStart
    | WaitScan(k: nat, kids: bool)
    | WaitHave(k: nat, kids: bool)
    | WaitLeave
    | WaitSleep0
    | WaitSleep1
    | WaitSleep2
    | Sleep0(n: nat)
    | Sleep2(n: nat)
    | SleepSched(inWait: bool)
    | SleepBack(inWait: bool)
    | KillScan(pid: nat, k: nat)
    | KillHave(pid: nat, k: nat)
    | Yield0(back: Pc)
    | Yield1(back: Pc)
    | Yield2(back: Pc)
    | YieldBack(back: Pc)
    | Panicked

  /** where is a history variable: the CPU that runs the process or is about to switch to it. */
  datatype Proc = Proc(state: ProcState, chan: Chan, parent: Option<nat>, pid: nat, xstate: int, killed: bool,
                       pc: Pc, where: Option<nat>)

  datatype SchedPc = Look(p: nat) | Have(p: nat) | Switch(p: nat) | Away(p: nat) | Done(p: nat)

  /** on is the process whose kernel stack the CPU uses, None on the scheduler's own stack; proc is
      the field c->proc. */
  datatype Cpu = Cpu(on: Option<nat>, proc: Option<nat>, spc: SchedPc)

  datatype Exit = Exit(pid: nat, status: int)
  datatype Reap = Reap(who: nat, pid: nat, status: int)

  /** A spinlock records the CPU that holds it. exits and reaps are history variables. */
  datatype State = State(procs: seq<Proc>, cpus: seq<Cpu>, plock: seq<Option<nat>>, wlock: Option<nat>,
                         init: nat, nextpid: nat, exits: seq<Exit>, reaps: seq<Reap>)

  // ---------------------------------------------------------------- what a place holds

  /** The process whose lock the thread of p holds at pc, or -1. */
  function HeldAt(pc: Pc, p: nat): int {
    match pc
    case ForkRet => p
    case ForkHave(k) => k
    case ForkFill(k) => k
    case ForkRun(k) => k
    case WakeHave(_, k, _) => k
    case ExitDie(_) => p
    case ExitUnlock => p
    case ExitSched => p
    case WaitHave(k, _) => k
    case WaitSleep1 => p
    case WaitSleep2 => p
    case Sleep2(_) => p
    case SleepSched(_) => p
    case SleepBack(_) => p
    case KillHave(_, k) => k
    case Yield1(_) => p
    case Yield2(_) => p
    case YieldBack(_) => p
    case _ => -1
  }

  /** wait_lock is held at pc. */
  predicate HasWait(pc: Pc) {
    match pc
    case ForkLink(_) => true
    case Reparent(_, _) => true
    case Wake(_, _, ret) => !ret.RetUser?
    case WakeHave(_, _, ret) => !ret.RetUser?
    case ExitLock(_) => true
    case ExitDie(_) => true
    case ExitUnlock => true
    case WaitScan(_, _) => true
    case WaitHave(_, _) => true
    case WaitLeave => true
    case WaitSleep0 => true
    case WaitSleep1 => true
    case _ => false
  }

  function SchedHeld(spc: SchedPc): int { if spc.Look? then -1 else spc.p }

  /** The process whose lock CPU c holds, or -1. */
  function Held(s: State, c: nat): int
    requires c < |s.cpus|
  {
    var u := s.cpus[c];
    if u.on.Some? && u.on.value < |s.procs| then HeldAt(s.procs[u.on.value].pc, u.on.value) else SchedHeld(u.spc)
  }

  predicate HoldsWait(s: State, c: nat)
    requires c < |s.cpus|
  {
    var u := s.cpus[c];
    u.on.Some? && u.on.value < |s.procs| && HasWait(s.procs[u.on.value].pc)
  }

  /** p->state while the thread is on a CPU at pc. */
  function StateAt(pc: Pc): ProcState {
    match pc
    case Yield2(_) => Runnable
    case SleepSched(_) => Sleeping
    case ExitUnlock => Zombie
    case ExitSched => Zombie
    case _ => Running
  }

  /** Places where a switched-out thread continues. */
  predicate Resumes(pc: Pc) { pc.ForkRet? || pc.YieldBack? || pc.SleepBack? }

  function Inner(pc: Pc): Pc {
    match pc
    case Yield0(b) => b
    case Yield1(b) => b
    case Yield2(b) => b
    case YieldBack(b) => b
    case _ => pc
  }

  /** An interrupt may call yield here. */
  predicate Plain(pc: Pc) {
    HeldAt(pc, 0) == -1 && HeldAt(pc, 1) == -1 && !HasWait(pc) && Inner(pc) == pc && !pc.Yield0? && !pc.Gone? && !pc.Panicked?
  }

  predicate Live(st: ProcState) { st.Runnable? || st.Running? || st.Sleeping? }

  /** The table entry a thread in fork is filling, or -1. */
  function Target(pc: Pc): int {
    match Inner(pc)
    case ForkFill(k) => k
    case ForkParent(k) => k
    case ForkLink(k) => k
    case ForkReady(k) => k
    case ForkRun(k) => k
    case _ => -1
  }

  // ---------------------------------------------------------------- steps

  datatype Act = Go | CallFork | CallExit(st: int) | CallWait | CallKill(pid: nat) | CallSleep(n: nat) | CallWakeup(n: nat)
    | Timer | Fail

  function Put(s: State, p: nat, x: Proc): State
    requires p < |s.procs|
  {
    s.(procs := s.procs[p := x])
  }

  function At(s: State, p: nat, pc: Pc): State
    requires p < |s.procs|
  {
    Put(s, p, s.procs[p].(pc := pc))
  }

  function LockP(s: State, c: nat, k: nat): State
    requires k < |s.plock|
  {
    s.(plock := s.plock[k := Some(c)])
  }

  function UnlockP(s: State, k: nat): State
    requires k < |s.plock|
  {
    s.(plock := s.plock[k := None])
  }

  predicate Sized(s: State) {
    |s.plock| == |s.procs| && s.init < |s.procs|
  }

  /** freeproc */
  function Freed(x: Proc): Proc {
    x.(pid := 0, parent := None, chan := NoChan, killed := false, xstate := 0, state := Unused)
  }

  /** CPU c may let the thread of p take action a: a lock that is asked for is free. */
  predicate ThreadEnabled(s: State, p: nat, a: Act)
    requires Sized(s) && p < |s.procs|
  {
    var n := |s.procs|;
    var pc := s.procs[p].pc;
    if a.Timer? then Plain(pc) else
    (match pc
     case User => !a.Go? && !a.Fail?
     case ForkFill(_) => a.Go? || a.Fail?
     case WaitHave(_, _) => a.Go? || a.Fail?
     case Gone => false
     case Panicked => false
     case _ => a.Go?)
    && (match pc
        case ForkScan(k) => k < n ==> s.plock[k].None?
        case ForkParent(_) => s.wlock.None?
        case ForkReady(k) => k < n && s.plock[k].None?
        case ExitStart(_) => s.wlock.None?
        case Wake(_, k, _) => k < n && k != p ==> s.plock[k].None?
        case ExitLock(_) => s.plock[p].None?
        case WaitStart => s.wlock.None?
        case WaitScan(k, _) => k < n && s.procs[k].parent == Some(p) ==> s.plock[k].None?
        case WaitSleep0 => s.plock[p].None?
        case Sleep0(_) => s.plock[p].None?
        case KillScan(_, k) => k < n ==> s.plock[k].None?
        case Yield0(_) => s.plock[p].None?
        case _ => true)
  }

  predicate InFork(pc: Pc) {
    pc.ForkScan? || pc.ForkHave? || pc.ForkFill? || pc.ForkParent? || pc.ForkLink? || pc.ForkReady? || pc.ForkRun?
  }
  predicate InExit(pc: Pc) {
    pc.ExitStart? || pc.Reparent? || pc.Wake? || pc.WakeHave? || pc.ExitLock? || pc.ExitDie? || pc.ExitUnlock?
  }
  predicate InWait(pc: Pc) {
    pc.WaitStart? || pc.WaitScan? || pc.WaitHave? || pc.WaitLeave? || pc.WaitSleep0? || pc.WaitSleep1?
  }
  predicate InSwitch(pc: Pc) { pc.ExitSched? || pc.SleepSched? || pc.Yield2? }

  /** fork and allocproc */
  function StepFork(s: State, c: nat, p: nat, a: Act): State
    requires Sized(s) && p < |s.procs| && InFork(s.procs[p].pc) && ThreadEnabled(s, p, a) && !a.Timer?
  {
    var n := |s.procs|;
    match s.procs[p].pc
    case ForkScan(k) => if k >= n then At(s, p, User) else At(LockP(s, c, k), p, ForkHave(k))
    case ForkHave(k) =>
      if k >= n then s
      else if s.procs[k].state.Unused? then
        At(Put(s, k, s.procs[k].(pid := s.nextpid, state := Used, pc := ForkRet)).(nextpid := s.nextpid + 1), p, ForkFill(k))
      else At(UnlockP(s, k), p, ForkScan(k + 1))
    case ForkFill(k) =>
      if k >= n then s
      else if a.Fail? then At(UnlockP(Put(s, k, Freed(s.procs[k])), k), p, User)
      else At(UnlockP(s, k), p, ForkParent(k))
    case ForkParent(k) => At(s.(wlock := Some(c)), p, ForkLink(k))
    case ForkLink(k) => if k >= n then s else At(Put(s, k, s.procs[k].(parent := Some(p))).(wlock := None), p, ForkReady(k))
    case ForkReady(k) => At(LockP(s, c, k), p, ForkRun(k))
    case ForkRun(k) => if k >= n then s else At(UnlockP(Put(s, k, s.procs[k].(state := Runnable)), k), p, User)
  }

  function Return(ret: Ret): Pc {
    match ret
    case RetReparent(j, st) => Reparent(j + 1, st)
    case RetExit(st) => ExitLock(st)
    case RetUser => User
  }

  function ParentChan(x: Proc): Chan { if x.parent.Some? then OfProc(x.parent.value) else NoChan }

  function Woken(x: Proc, ch: Chan): Proc { if x.state.Sleeping? && x.chan == ch then x.(state := Runnable) else x }

  /** exit up to sched, with reparent and wakeup */
  function StepExit(s: State, c: nat, p: nat): State
    requires Sized(s) && p < |s.procs| && InExit(s.procs[p].pc) && ThreadEnabled(s, p, Go)
  {
    var n := |s.procs|;
    match s.procs[p].pc
    case ExitStart(st) => At(s.(wlock := Some(c)), p, Reparent(0, st))
    case Reparent(j, st) =>
      if j >= n then At(s, p, Wake(ParentChan(s.procs[p]), 0, RetExit(st)))
      else if s.procs[j].parent == Some(p) then
        At(Put(s, j, s.procs[j].(parent := Some(s.init))), p, Wake(OfProc(s.init), 0, RetReparent(j, st)))
      else At(s, p, Reparent(j + 1, st))
    case Wake(ch, k, ret) =>
      if k >= n then At(s, p, Return(ret))
      else if k == p then At(s, p, Wake(ch, k + 1, ret))
      else At(LockP(s, c, k), p, WakeHave(ch, k, ret))
    case WakeHave(ch, k, ret) =>
      if k >= n then s else At(UnlockP(Put(s, k, Woken(s.procs[k], ch)), k), p, Wake(ch, k + 1, ret))
    case ExitLock(st) => At(LockP(s, c, p), p, ExitDie(st))
    case ExitDie(st) =>
      Put(s, p, s.procs[p].(xstate := st, state := Zombie, pc := ExitUnlock)).(exits := s.exits + [Exit(s.procs[p].pid, st)])
    case ExitUnlock => At(s.(wlock := None), p, ExitSched)
  }

  /** wait, up to the point where sleep has released wait_lock */
  function StepWait(s: State, c: nat, p: nat, a: Act): State
    requires Sized(s) && p < |s.procs| && InWait(s.procs[p].pc) && ThreadEnabled(s, p, a) && !a.Timer?
  {
    var n := |s.procs|;
    match s.procs[p].pc
    case WaitStart => At(s.(wlock := Some(c)), p, WaitScan(0, false))
    case WaitScan(k, kids) =>
      if k >= n then At(s, p, if !kids || s.procs[p].killed then WaitLeave else WaitSleep0)
      else if s.procs[k].parent == Some(p) then At(LockP(s, c, k), p, WaitHave(k, kids))
      else At(s, p, WaitScan(k + 1, kids))
    case WaitHave(k, kids) =>
      if k >= n then s
      else if s.procs[k].state.Zombie? then
        if a.Fail? then At(UnlockP(s, k), p, WaitLeave)
        else At(UnlockP(Put(s, k, Freed(s.procs[k])), k), p, WaitLeave)
             .(reaps := s.reaps + [Reap(p, s.procs[k].pid, s.procs[k].xstate)])
      else At(UnlockP(s, k), p, WaitScan(k + 1, true))
    case WaitLeave => At(s.(wlock := None), p, User)
    case WaitSleep0 => At(LockP(s, c, p), p, WaitSleep1)
    case WaitSleep1 => At(s.(wlock := None), p, WaitSleep2)
  }

  /** swtch from the thread of p to the scheduler of CPU c */
  function SwitchOut(s: State, c: nat, p: nat): State
    requires p < |s.procs| && c < |s.cpus| && InSwitch(s.procs[p].pc)
  {
    var pc := match s.procs[p].pc
      case SleepSched(w) => SleepBack(w)
      case Yield2(b) => YieldBack(b)
      case _ => Gone;
    Put(s, p, s.procs[p].(pc := pc, where := None)).(cpus := s.cpus[c := s.cpus[c].(on := None)])
  }

  function Enter(s: State, p: nat, a: Act): Pc {
    match a
    case CallFork => ForkScan(0)
    case CallExit(st) => if p == s.init then Panicked else ExitStart(st)
    case CallWait => WaitStart
    case CallKill(pid) => KillScan(pid, 0)
    case CallSleep(n) => Sleep0(n)
    case CallWakeup(n) => Wake(Other(n), 0, RetUser)
    case _ => User
  }

  function Killed(x: Proc): Proc { x.(killed := true, state := if x.state.Sleeping? then Runnable else x.state) }

  /** system-call entry, sleep, kill and yield */
  function StepOther(s: State, c: nat, p: nat, a: Act): State
    requires Sized(s) && p < |s.procs| && ThreadEnabled(s, p, a) && !a.Timer?
  {
    var n := |s.procs|;
    var x := s.procs[p];
    match x.pc
    case User => At(s, p, Enter(s, p, a))
    case ForkRet => At(UnlockP(s, p), p, User)
    case WaitSleep2 => Put(s, p, x.(chan := OfProc(p), state := Sleeping, pc := SleepSched(true)))
    case Sleep0(m) => At(LockP(s, c, p), p, Sleep2(m))
    case Sleep2(m) => Put(s, p, x.(chan := Other(m), state := Sleeping, pc := SleepSched(false)))
    case SleepBack(w) => Put(UnlockP(s, p), p, x.(chan := NoChan, pc := if w then WaitStart else User))
    case KillScan(pid, k) => if k >= n then At(s, p, User) else At(LockP(s, c, k), p, KillHave(pid, k))
    case KillHave(pid, k) =>
      if k >= n then s
      else if s.procs[k].pid == pid then At(UnlockP(Put(s, k, Killed(s.procs[k])), k), p, User)
      else At(UnlockP(s, k), p, KillScan(pid, k + 1))
    case Yield0(b) => At(LockP(s, c, p), p, Yield1(b))
    case Yield1(b) => Put(s, p, x.(state := Runnable, pc := Yield2(b)))
    case YieldBack(b) => At(UnlockP(s, p), p, b)
    case _ => s
  }

  function StepThread(s: State, c: nat, p: nat, a: Act): State
    requires Sized(s) && c < |s.cpus| && p < |s.procs| && ThreadEnabled(s, p, a)
  {
    var pc := s.procs[p].pc;
    if a.Timer? then At(s, p, Yield0(pc))
    else if InFork(pc) then StepFork(s, c, p, a)
    else if InExit(pc) then StepExit(s, c, p)
    else if InWait(pc) then StepWait(s, c, p, a)
    else if InSwitch(pc) then SwitchOut(s, c, p)
    else StepOther(s, c, p, a)
  }

  predicate SchedEnabled(s: State, c: nat)
    requires Sized(s) && c < |s.cpus|
  {
    s.cpus[c].spc.p < |s.procs| && (s.cpus[c].spc.Look? ==> s.plock[s.cpus[c].spc.p].None?)
  }

  /** The loop of scheduler on CPU c. */
  function StepSched(s: State, c: nat): State
    requires Sized(s) && c < |s.cpus| && SchedEnabled(s, c)
  {
    var u := s.cpus[c];
    var k := u.spc.p;
    match u.spc
    case Look(_) => LockP(s, c, k).(cpus := s.cpus[c := u.(spc := Have(k))])
    case Have(_) =>
      if s.procs[k].state.Runnable? then
        Put(s, k, s.procs[k].(state := Running, where := Some(c))).(cpus := s.cpus[c := u.(proc := Some(k), spc := Switch(k))])
      else s.(cpus := s.cpus[c := u.(spc := Done(k))])
    case Switch(_) => s.(cpus := s.cpus[c := u.(on := Some(k), spc := Away(k))])
    case Away(_) => s.(cpus := s.cpus[c := u.(proc := None, spc := Done(k))])
    case Done(_) => UnlockP(s, k).(cpus := s.cpus[c := u.(spc := Look((k + 1) % |s.procs|))])
  }

  predicate Enabled(s: State, c: nat, a: Act) {
    Sized(s) && c < |s.cpus| &&
    if s.cpus[c].on.Some? then s.cpus[c].on.value < |s.procs| && ThreadEnabled(s, s.cpus[c].on.value, a)
    else a.Go? && SchedEnabled(s, c)
  }

  /** CPU c takes its next step. */
  function Step(s: State, c: nat, a: Act): State
    requires Enabled(s, c, a)
  {
    if s.cpus[c].on.Some? then StepThread(s, c, s.cpus[c].on.value, a) else StepSched(s, c)
  }

  // ---------------------------------------------------------------- invariant

  predicate BusyWith(u: Cpu, p: nat) { u.on == Some(p) || (u.on.None? && u.spc == Switch(p)) }

  ghost predicate CpuOk(s: State, c: nat)
    requires c < |s.cpus|
  {
    var u := s.cpus[c];
    && u.spc.p < |s.procs|
    && (u.on.Some? ==> u.spc == Away(u.on.value) && u.proc == u.on)
    && (u.on.None? ==> u.proc == if u.spc.Switch? || u.spc.Away? then Some(u.spc.p) else None)
    && (BusyWith(u, u.spc.p) ==> s.procs[u.spc.p].where == Some(c))
  }

  /** p->state and the place of the thread agree, on a CPU and off it. */
  ghost predicate ProcOk(s: State, p: nat)
    requires p < |s.procs|
  {
    var x := s.procs[p];
    && (x.where.Some? ==>
          && x.where.value < |s.cpus| && BusyWith(s.cpus[x.where.value], p)
          && if s.cpus[x.where.value].on == Some(p) then x.state == StateAt(x.pc) && !x.pc.Gone?
             else x.state.Running? && Resumes(x.pc))
    && (x.where.None? ==>
          && !x.state.Running? && (Live(x.state) ==> Resumes(x.pc)) && (x.state.Zombie? ==> x.pc.Gone?)
          && (x.state.Used? || x.state.Unused? ==> x.pc.ForkRet? || x.pc.Gone?))
    && (x.state.Sleeping? ==>
          && (x.pc.SleepSched? || x.pc.SleepBack?)
          && if x.pc.inWait then x.chan == OfProc(p) else x.chan.Other?)
  }

  predicate Exiting(pc: Pc) {
    pc.ExitStart? || pc.Reparent? || (pc.Wake? && !pc.ret.RetUser?) || (pc.WakeHave? && !pc.ret.RetUser?)
    || pc.ExitLock? || pc.ExitDie? || pc.ExitUnlock? || pc.ExitSched?
  }

  ghost predicate BoundsOk(s: State, p: nat)
    requires p < |s.procs|
  {
    BoundsAt(s, p, s.procs[p].pc)
  }

  ghost predicate BoundsAt(s: State, p: nat, pc: Pc) {
    && (Exiting(Inner(pc)) ==> p != s.init)
    && (pc.Yield0? || pc.Yield1? || pc.Yield2? || pc.YieldBack? ==> Plain(pc.back))
    && (pc.ForkHave? || pc.WakeHave? || pc.WaitHave? || pc.KillHave? ==> pc.k < |s.procs|)
    && (pc.WakeHave? ==> pc.k != p)
  }

  ghost predicate LocksOk(s: State) {
    && (forall k :: 0 <= k < |s.plock| && s.plock[k].Some? ==> s.plock[k].value < |s.cpus|)
    && (forall c, k :: 0 <= c < |s.cpus| && 0 <= k < |s.plock| ==> (s.plock[k] == Some(c) <==> Held(s, c) == k))
    && (s.wlock.Some? ==> s.wlock.value < |s.cpus|)
    && (forall c :: 0 <= c < |s.cpus| ==> (s.wlock == Some(c) <==> HoldsWait(s, c)))
  }

  /** Every parent is alive, and everybody but init who has started has a parent. */
  ghost predicate ParentOk(s: State, k: nat)
    requires k < |s.procs|
  {
    var x := s.procs[k];
    && (x.parent.Some? ==> x.parent.value < |s.procs| && Live(s.procs[x.parent.value].state))
    && ((Live(x.state) || x.state.Zombie?) && k != s.init ==> x.parent.Some?)
    && (k == s.init ==> Live(x.state))
    && (x.state.Unused? ==> x.parent.None?)
  }

  /** The entry a fork is filling belongs to that fork alone. */
  ghost predicate MakeOk(s: State, p: nat)
    requires p < |s.procs|
  {
    MakeAt(s, p, s.procs[p].pc)
  }

  ghost predicate MakeAt(s: State, p: nat, pc: Pc) {
    var k := Target(pc);
    k >= 0 ==>
      && k < |s.procs| && k != p && s.procs[k].state.Used? && s.procs[k].where.None? && s.procs[k].pc.ForkRet?
      && s.procs[k].parent == if Inner(pc).ForkReady? || Inner(pc).ForkRun? then Some(p) else None
  }

  ghost predicate MakersOk(s: State) {
    && (forall p :: 0 <= p < |s.procs| ==> MakeOk(s, p))
    && forall p, q :: 0 <= p < |s.procs| && 0 <= q < |s.procs| && Target(s.procs[p].pc) == Target(s.procs[q].pc) >= 0 ==> p == q
  }

  /** q has looked at all its children and will sleep, or sleeps, until somebody wakes it. */
  ghost predicate Committed(s: State, q: nat) {
    && q < |s.procs|
    && (s.procs[q].pc.WaitSleep1? || s.procs[q].pc.WaitSleep2? || (s.procs[q].state.Sleeping? && s.procs[q].chan == OfProc(q)))
  }

  ghost predicate Childless(s: State, p: nat, j: nat) {
    forall i :: 0 <= i < j && i < |s.procs| ==> s.procs[i].parent != Some(p)
  }

  ghost predicate Clean(s: State, p: nat, j: nat) {
    forall i :: 0 <= i < j && i < |s.procs| && s.procs[i].parent == Some(p) ==> !s.procs[i].state.Zombie?
  }

  /** wakeup(q) has passed q: q cannot be asleep or about to sleep. */
  ghost predicate RetOk(s: State, p: nat, ch: Chan, k: nat, ret: Ret)
    requires p < |s.procs|
  {
    match ret
    case RetReparent(j, _) => j < |s.procs| && Childless(s, p, j + 1) && ch == OfProc(s.init) && (k > s.init ==> !Committed(s, s.init))
    case RetExit(_) =>
      && Childless(s, p, |s.procs|) && s.procs[p].parent.Some? && ch == OfProc(s.procs[p].parent.value)
      && (k > s.procs[p].parent.value ==> !Committed(s, s.procs[p].parent.value))
    case RetUser => true
  }

  /** What the holder of wait_lock knows. */
  ghost predicate HolderOk(s: State, p: nat)
    requires p < |s.procs|
  {
    HolderAt(s, p, s.procs[p].pc)
  }

  ghost predicate HolderAt(s: State, p: nat, pc: Pc)
    requires p < |s.procs|
  {
    match pc
    case Reparent(j, _) => Childless(s, p, j)
    case Wake(ch, k, ret) => RetOk(s, p, ch, k, ret)
    case WakeHave(ch, k, ret) => RetOk(s, p, ch, k, ret)
    case ExitLock(_) => Childless(s, p, |s.procs|) && s.procs[p].parent.Some? && !Committed(s, s.procs[p].parent.value)
    case ExitDie(_) => Childless(s, p, |s.procs|) && s.procs[p].parent.Some? && !Committed(s, s.procs[p].parent.value)
    case WaitScan(k, _) => Clean(s, p, k)
    case WaitHave(k, _) => Clean(s, p, k) && k < |s.procs| && s.procs[k].parent == Some(p)
    case WaitSleep0 => Clean(s, p, |s.procs|)
    case WaitSleep1 => Clean(s, p, |s.procs|)
    case _ => true
  }

  ghost predicate HasZombie(s: State, q: nat) {
    exists i :: 0 <= i < |s.procs| && s.procs[i].parent == Some(q) && s.procs[i].state.Zombie?
  }

  /** The holder of wait_lock has given children to init and its wakeup(init) has yet to reach init. */
  ghost predicate Rousing(s: State, p: nat)
    requires p < |s.procs|
  {
    RousingAt(s, s.procs[p].pc)
  }

  ghost predicate RousingAt(s: State, pc: Pc) {
    (pc.Wake? || pc.WakeHave?) && pc.ret.RetReparent? && pc.k <= s.init
  }

  ghost predicate WaitsOk(s: State) {
    && (forall p :: 0 <= p < |s.procs| && HasWait(s.procs[p].pc) ==> HolderOk(s, p))
    && forall q :: Committed(s, q) && HasZombie(s, q) ==> q == s.init && exists p :: 0 <= p < |s.procs| && Rousing(s, p)
  }

  ghost predicate Exited(s: State, pid: nat) { exists i :: 0 <= i < |s.exits| && s.exits[i].pid == pid }
  ghost predicate Reaped(s: State, pid: nat) { exists i :: 0 <= i < |s.reaps| && s.reaps[i].pid == pid }

  /** Process numbers are never reused; each exit waits in one zombie until it is collected. */
  ghost predicate PidOk(s: State, k: nat)
    requires k < |s.procs|
  {
    var x := s.procs[k];
    && (!x.state.Unused? ==> x.pid < s.nextpid)
    && (x.state.Zombie? ==> Exit(x.pid, x.xstate) in s.exits && !Reaped(s, x.pid))
    && (!x.state.Zombie? && !x.state.Unused? ==> !Exited(s, x.pid))
  }

  /** The status has been handed out, or a zombie still has it. */
  ghost predicate Kept(s: State, e: Exit) {
    Reaped(s, e.pid) || exists k :: 0 <= k < |s.procs| && s.procs[k].state.Zombie? && s.procs[k].pid == e.pid && s.procs[k].xstate == e.status
  }

  ghost predicate PidsOk(s: State) {
    && (forall i :: 0 <= i < |s.exits| ==> Kept(s, s.exits[i]))
    && (forall k :: 0 <= k < |s.procs| ==> PidOk(s, k))
    && (forall j, k :: 0 <= j < k < |s.procs| && !s.procs[j].state.Unused? && !s.procs[k].state.Unused? ==>
          s.procs[j].pid != s.procs[k].pid)
    && (forall i :: 0 <= i < |s.exits| ==> s.exits[i].pid < s.nextpid)
    && (forall i, j :: 0 <= i < j < |s.exits| ==> s.exits[i].pid != s.exits[j].pid)
    && (forall i :: 0 <= i < |s.reaps| ==> Exit(s.reaps[i].pid, s.reaps[i].status) in s.exits)
    && (forall i, j :: 0 <= i < j < |s.reaps| ==> s.reaps[i].pid != s.reaps[j].pid)
  }

  ghost predicate CpusOk(s: State) { forall c :: 0 <= c < |s.cpus| ==> CpuOk(s, c) }
  ghost predicate ProcsOk(s: State) { forall p :: 0 <= p < |s.procs| ==> ProcOk(s, p) && BoundsOk(s, p) }
  ghost predicate ParentsOk(s: State) { forall p :: 0 <= p < |s.procs| ==> ParentOk(s, p) }

  ghost predicate Inv(s: State) {
    Sized(s) && CpusOk(s) && ProcsOk(s) && LocksOk(s) && ParentsOk(s) && MakersOk(s) && WaitsOk(s) && PidsOk(s)
  }
}
