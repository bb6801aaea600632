/** The thread barrier of xv6-lab-multithreading/barrier.c:25-62, for any number of threads and
    iterations. A step is one mutex operation or what a thread does while it holds the mutex. */
module Barrier {
  import opened Common

  /** Where a thread is in iteration i: about to read round, at the mutex, inside with the mutex
      before counting itself, in the condition wait, woken and at the mutex again, or about to unlock. */
  datatype Pc = Top(i: nat) | Want(i: nat) | Inside(i: nat) | Waiting(i: nat) | Woken(i: nat) | Leave(i: nat)

  datatype State = State(pcs: seq<Pc>, mutex: Option<nat>, nthread: nat, round: nat)

  predicate Enabled(s: State, iters: nat, t: nat) {
    t < |s.pcs| &&
    match s.pcs[t]
    case Top(i) => i < iters
    case Want(_) => s.mutex.None?
    case Woken(_) => s.mutex.None?
    case Waiting(_) => false
    case _ => true
  }

  /** pthread_cond_broadcast */
  function Broadcast(pcs: seq<Pc>): seq<Pc> {
    seq(|pcs|, x requires 0 <= x < |pcs| => if pcs[x].Waiting? then Woken(pcs[x].i) else pcs[x])
  }

  function Step(s: State, t: nat): State
    requires t < |s.pcs|
  {
    match s.pcs[t]
    case Top(i) => s.(pcs := s.pcs[t := Want(i)])
    case Want(i) => s.(pcs := s.pcs[t := Inside(i)], mutex := Some(t))
    case Inside(i) =>
      if s.nthread + 1 == |s.pcs| then State(Broadcast(s.pcs)[t := Leave(i)], s.mutex, 0, s.round + 1)
      else State(s.pcs[t := Waiting(i)], None, s.nthread + 1, s.round)
    case Woken(i) => s.(pcs := s.pcs[t := Leave(i)], mutex := Some(t))
    case Leave(i) => s.(pcs := s.pcs[t := Top(i + 1)], mutex := None)
    case Waiting(_) => s
  }

  /** A return from the condition wait that no broadcast caused. */
  function Spurious(s: State, t: nat): State
    requires t < |s.pcs|
  {
    if s.pcs[t].Waiting? then s.(pcs := s.pcs[t := Woken(s.pcs[t].i)]) else s
  }

  // ---------------------------------------------------------------- invariant

  /** Not yet counted in round r. */
  predicate Outside(pc: Pc, r: nat) { (pc.Top? || pc.Want? || pc.Inside?) && pc.i == r }

  /** Released by the broadcast that ended round r - 1 and still inside barrier(). */
  predicate Released(pc: Pc, r: nat) { (pc.Woken? || pc.Leave?) && pc.i + 1 == r }

  ghost predicate PlaceOk(pc: Pc, r: nat) { Outside(pc, r) || pc == Waiting(r) || Released(pc, r) }

  ghost function Waiters(pcs: seq<Pc>): set<nat> { set t | 0 <= t < |pcs| && pcs[t].Waiting? }

  predicate HasMutex(pc: Pc) { pc.Inside? || pc.Leave? }

  ghost predicate Inv(s: State) {
    && |s.pcs| > 0
    && (forall t :: 0 <= t < |s.pcs| ==> PlaceOk(s.pcs[t], s.round))
    && s.nthread == |Waiters(s.pcs)| < |s.pcs|
    && (forall t :: 0 <= t < |s.pcs| ==> (HasMutex(s.pcs[t]) <==> s.mutex == Some(t)))
    && (s.mutex.Some? ==> s.mutex.value < |s.pcs|)
  }

  ghost function Threads(n: nat): set<nat> { if n == 0 then {} else Threads(n - 1) + {n - 1} }

  lemma {:induction false} ThreadCount(n: nat)
    ensures |Threads(n)| == n && forall t: nat :: t in Threads(n) <==> t < n
  {
    if n > 0 {
      ThreadCount(n - 1);
    }
  }

  /** n - 1 waiters and one thread that is not among them are all threads. */
  lemma LastOne(s: State, t: nat)
    requires Inv(s) && t < |s.pcs| && !s.pcs[t].Waiting? && s.nthread + 1 == |s.pcs|
    ensures forall u :: 0 <= u < |s.pcs| && u != t ==> s.pcs[u] == Waiting(s.round)
  {
    var w := Waiters(s.pcs);
    ThreadCount(|s.pcs|);
    SubsetSize(w + {t}, Threads(|s.pcs|));
    forall u | 0 <= u < |s.pcs| && u != t ensures s.pcs[u] == Waiting(s.round) {
      assert u in Threads(|s.pcs|) && PlaceOk(s.pcs[u], s.round);
      assert u in w;
    }
  }

  lemma WaitersSame(s: State, t: nat, pc: Pc)
    requires t < |s.pcs| && !s.pcs[t].Waiting?
    ensures !pc.Waiting? ==> Waiters(s.pcs[t := pc]) == Waiters(s.pcs)
    ensures pc.Waiting? ==> Waiters(s.pcs[t := pc]) == Waiters(s.pcs) + {t} && t !in Waiters(s.pcs)
  {
  }

  lemma StepInv(s: State, iters: nat, t: nat)
    requires Inv(s) && Enabled(s, iters, t)
    ensures Inv(Step(s, t))
  {
    hide Inv, Step;
    if s.pcs[t].Inside? && s.nthread + 1 == |s.pcs| { LastInv(s, t); } else { OtherInv(s, iters, t); }
  }

  /** The last thread ends the round and releases everybody. */
  lemma LastInv(s: State, t: nat)
    requires Inv(s) && t < |s.pcs| && s.pcs[t].Inside? && s.nthread + 1 == |s.pcs|
    ensures Inv(Step(s, t))
  {
    var u := Step(s, t);
    LastOne(s, t);
    assert Waiters(u.pcs) == {};
    forall x | 0 <= x < |u.pcs| ensures PlaceOk(u.pcs[x], u.round) && (HasMutex(u.pcs[x]) <==> u.mutex == Some(x)) {
      assert PlaceOk(s.pcs[x], s.round);
    }
  }

  lemma OtherInv(s: State, iters: nat, t: nat)
    requires Inv(s) && Enabled(s, iters, t) && !(s.pcs[t].Inside? && s.nthread + 1 == |s.pcs|)
    ensures Inv(Step(s, t))
  {
    var u := Step(s, t);
    WaitersSame(s, t, u.pcs[t]);
    hide Waiters;
    forall x | 0 <= x < |u.pcs| ensures PlaceOk(u.pcs[x], u.round) && (HasMutex(u.pcs[x]) <==> u.mutex == Some(x)) {
      assert PlaceOk(s.pcs[x], s.round) && (HasMutex(s.pcs[x]) <==> s.mutex == Some(x));
    }
  }

  // ---------------------------------------------------------------- runs

  ghost predicate Init(s: State) {
    |s.pcs| > 0 && (forall t :: 0 <= t < |s.pcs| ==> s.pcs[t] == Top(0)) && s.mutex.None? && s.nthread == 0 && s.round == 0
  }

  ghost predicate Next(s: State, iters: nat, u: State) { exists t :: Moves(s, iters, t, u) }
  ghost predicate Moves(s: State, iters: nat, t: nat, u: State) { Enabled(s, iters, t) && u == Step(s, t) }

  /** The condition wait returns only after a broadcast. */
  ghost predicate IsRun(run: seq<State>, iters: nat) {
    |run| > 0 && Init(run[0]) && forall i :: 0 <= i < |run| - 1 ==> Next(run[i], iters, run[i + 1])
  }

  lemma {:induction false} RunInv(run: seq<State>, iters: nat, k: nat)
    requires IsRun(run, iters) && k < |run|
    ensures Inv(run[k])
    decreases k
  {
    if k == 0 {
      assert Waiters(run[0].pcs) == {};
    } else {
      RunInv(run, iters, k - 1);
      assert Next(run[k - 1], iters, run[k]);
      var t :| Moves(run[k - 1], iters, t, run[k]);
      StepInv(run[k - 1], iters, t);
    }
  }

  /** The assertion i == t of every thread holds: a thread that starts iteration i reads round i. */
  lemma RoundMatches(run: seq<State>, iters: nat, k: nat, t: nat)
    requires IsRun(run, iters) && k < |run| && t < |run[k].pcs| && run[k].pcs[t].Top?
    ensures run[k].round == run[k].pcs[t].i
  {
    RunInv(run, iters, k);
    assert PlaceOk(run[k].pcs[t], run[k].round);
  }

  /** t has counted itself in round r, or is past it. */
  predicate Entered(pc: Pc, r: nat) { pc.i > r || (pc.i == r && (pc.Waiting? || pc.Woken? || pc.Leave?)) }

  /** Nobody leaves round r before everybody has entered it. */
  lemma NobodyLeavesEarly(run: seq<State>, iters: nat, k: nat, t: nat, u: nat, r: nat)
    requires IsRun(run, iters) && k < |run| && t < |run[k].pcs| && u < |run[k].pcs|
    requires run[k].pcs[t].i > r || run[k].pcs[t] == Leave(r) || run[k].pcs[t] == Woken(r)
    ensures Entered(run[k].pcs[u], r)
  {
    RunInv(run, iters, k);
    assert PlaceOk(run[k].pcs[t], run[k].round) && PlaceOk(run[k].pcs[u], run[k].round);
  }

  /** No deadlock: until every thread has done its iterations, some thread can move. */
  lemma NeverStuck(run: seq<State>, iters: nat, k: nat)
    requires IsRun(run, iters) && k < |run|
    ensures (forall t :: 0 <= t < |run[k].pcs| ==> run[k].pcs[t].Top? && run[k].pcs[t].i >= iters)
         || exists t :: Enabled(run[k], iters, t)
  {
    RunInv(run, iters, k);
    RunBound(run, iters, k);
    var s := run[k];
    if s.mutex.Some? {
      assert HasMutex(s.pcs[s.mutex.value]) && Enabled(s, iters, s.mutex.value);
    } else if t :| 0 <= t < |s.pcs| && !s.pcs[t].Waiting? && !(s.pcs[t].Top? && s.pcs[t].i >= iters) {
      assert Enabled(s, iters, t);
    } else if w :| 0 <= w < |s.pcs| && s.pcs[w].Waiting? {
      // everybody waits or is done; somebody is not waiting
      var t := NotAllWait(s);
    }
  }

  lemma NotAllWait(s: State) returns (t: nat)
    requires Inv(s)
    ensures t < |s.pcs| && !s.pcs[t].Waiting?
  {
    ThreadCount(|s.pcs|);
    var w, all := Waiters(s.pcs), Threads(|s.pcs|);
    assert w != all;
    assert all - w == {} ==> w == all;
    t :| t in all - w;
  }

  /** A thread inside the barrier is in an iteration below the limit. */
  lemma {:induction false} RunBound(run: seq<State>, iters: nat, k: nat)
    requires IsRun(run, iters) && k < |run|
    ensures forall t :: 0 <= t < |run[k].pcs| && !run[k].pcs[t].Top? ==> run[k].pcs[t].i < iters
    decreases k
  {
    if k > 0 {
      RunBound(run, iters, k - 1);
      assert Next(run[k - 1], iters, run[k]);
      var t :| Moves(run[k - 1], iters, t, run[k]);
    }
  }

  // ---------------------------------------------------------------- every run ends

  /** How many of its steps a thread has behind it. */
  function Worth(pc: Pc): nat {
    6 * pc.i + match pc
      case Top(_) => 0
      case Want(_) => 1
      case Inside(_) => 2
      case Waiting(_) => 3
      case Woken(_) => 4
      case Leave(_) => 5
  }

  function Total(pcs: seq<Pc>): nat { if pcs == [] then 0 else Total(pcs[..|pcs| - 1]) + Worth(pcs[|pcs| - 1]) }

  lemma {:induction false} TotalGrows(a: seq<Pc>, b: seq<Pc>)
    requires |a| == |b| && forall x :: 0 <= x < |a| ==> Worth(a[x]) <= Worth(b[x])
    ensures Total(a) <= Total(b)
    ensures (exists t :: 0 <= t < |a| && Worth(a[t]) < Worth(b[t])) ==> Total(a) < Total(b)
  {
    if a != [] {
      TotalGrows(a[..|a| - 1], b[..|a| - 1]);
      if t :| 0 <= t < |a| - 1 && Worth(a[t]) < Worth(b[t]) { assert Worth(a[..|a| - 1][t]) < Worth(b[..|a| - 1][t]); }
    }
  }

  lemma {:induction false} TotalBound(a: seq<Pc>, m: nat)
    requires forall x :: 0 <= x < |a| ==> Worth(a[x]) <= m
    ensures Total(a) <= |a| * m
  {
    if a != [] {
      TotalBound(a[..|a| - 1], m);
      assert |a| * m == (|a| - 1) * m + m;
    }
  }

  /** Every step of a thread takes it on and takes nobody back. */
  lemma StepGains(s: State, iters: nat, t: nat)
    requires Enabled(s, iters, t)
    ensures |Step(s, t).pcs| == |s.pcs| && Total(s.pcs) < Total(Step(s, t).pcs)
  {
    var u := Step(s, t);
    forall x | 0 <= x < |s.pcs| ensures Worth(s.pcs[x]) <= Worth(u.pcs[x]) && (x == t ==> Worth(s.pcs[x]) < Worth(u.pcs[x])) { }
    TotalGrows(s.pcs, u.pcs);
  }

  lemma {:induction false} RunGains(run: seq<State>, iters: nat, k: nat)
    requires IsRun(run, iters) && k < |run|
    ensures |run[k].pcs| == |run[0].pcs| && Total(run[k].pcs) >= k && forall t :: 0 <= t < |run[k].pcs| ==> run[k].pcs[t].i <= iters && (run[k].pcs[t].i == iters ==> run[k].pcs[t].Top?)
    decreases k
  {
    if k > 0 {
      RunGains(run, iters, k - 1);
      assert Next(run[k - 1], iters, run[k]);
      var t :| Moves(run[k - 1], iters, t, run[k]);
      StepGains(run[k - 1], iters, t);
    }
  }

  /** No run is longer than six steps per thread and iteration; so, with NeverStuck, every run that is not
      cut short ends with every thread done. */
  lemma RunsAreFinite(run: seq<State>, iters: nat)
    requires IsRun(run, iters)
    ensures |run| - 1 <= |run[0].pcs| * (6 * iters)
  {
    var k := |run| - 1;
    RunGains(run, iters, k);
    TotalBound(run[k].pcs, 6 * iters);
  }

  // ---------------------------------------------------------------- spurious wakeups

  /** The mutex is held by the last thread to count itself: its next step ends the round. */
  predicate Completing(s: State) {
    s.mutex.Some? && s.mutex.value < |s.pcs| && s.pcs[s.mutex.value].Inside? && s.nthread + 1 == |s.pcs|
  }

  /** The holder of the mutex, if there is one, gives it back. */
  function Settle(s: State): State {
    if s.mutex.Some? && s.mutex.value < |s.pcs| then Step(s, s.mutex.value) else s
  }

  /** The wait is not in a loop: one return without a broadcast is harmless exactly if a thread is about
      to end the round. Otherwise, once the mutex is free, the woken thread starts the next iteration
      while round is still the old one. */
  lemma SpuriousBreaks(s: State, iters: nat, t: nat)
    requires Inv(s) && t < |s.pcs| && s.pcs[t].Waiting?
    ensures var u := Spurious(s, t);
      Completing(s) ==> (forall x :: Enabled(u, iters, x) ==> x == s.mutex.value) && Step(u, s.mutex.value) == Step(s, s.mutex.value)
    ensures var u := Settle(Spurious(s, t));
      var v := Step(u, t);
      !Completing(s) ==>
        && (s.mutex.Some? ==> Enabled(Spurious(s, t), iters, s.mutex.value)) && Enabled(u, iters, t) && Enabled(v, iters, t)
        && Step(v, t).pcs[t].Top? && Step(v, t).pcs[t].i != Step(v, t).round
  {
    assert PlaceOk(s.pcs[t], s.round);
    var u := Spurious(s, t);
    if Completing(s) {
      var h := s.mutex.value;
      LastOne(s, h);
      assert Broadcast(u.pcs)[h := Leave(u.pcs[h].i)] == Broadcast(s.pcs)[h := Leave(s.pcs[h].i)];
    } else if s.mutex.Some? {
      var h := s.mutex.value;
      assert HasMutex(s.pcs[h]) && h != t && u.pcs[h] == s.pcs[h];
      assert Settle(u).mutex.None? && Settle(u).pcs[t] == Woken(s.round) && Settle(u).round == s.round;
    }
  }

  /** Such a state is reached by the first of two threads. */
  lemma SpuriousReachable()
    ensures var s0 := State([Top(0), Top(0)], None, 0, 0);
      Init(s0) && Enabled(s0, 1, 0) && Enabled(Step(s0, 0), 1, 0) && Enabled(Step(Step(s0, 0), 0), 1, 0)
      && Step(Step(Step(s0, 0), 0), 0) == State([Waiting(0), Top(0)], None, 1, 0)
  {
    var s0 := State([Top(0), Top(0)], None, 0, 0);
    assert Step(s0, 0) == State([Want(0), Top(0)], None, 0, 0);
    assert Step(Step(s0, 0), 0) == State([Inside(0), Top(0)], Some(0), 0, 0);
  }
}
