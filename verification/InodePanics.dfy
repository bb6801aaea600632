/** When ilock meets a free inode (xv6-lab-filesystem/fs.c:294-311): exactly after an iget of a number that
    was free at that moment or that an iput had decided to free. */
module InodePanics {
  import opened Common
  import opened InodeTable

  // ---------------------------------------------------------------- a sure reference protects its inode

  ghost predicate SureAt(s: State, h: Handle)
    requires h in s.pcs && Refers(s.pcs[h])
  {
    var e := s.pcs[h].e;
    && !s.pcs[h].Panicked? && e < |s.entries| && s.entries[e].inum in s.disk && s.disk[s.entries[e].inum].kind != 0
    && forall g :: g in s.pcs && g != h && s.pcs[g].Drop1? ==> s.pcs[g].e != e
  }

  ghost predicate Guards(s: State, h: Handle) { h in s.sure && h in s.pcs && Refers(s.pcs[h]) && !Freed(s.pcs[h]) }

  /** While a sure handle has its reference, the inode is allocated and nobody else is freeing it. */
  ghost predicate SureOk(s: State) { forall h :: Guards(s, h) ==> SureAt(s, h) }

  lemma GetSure(s: State, h: Handle, inum: Id, x: Handle)
    requires Inv(s) && SureOk(s) && h in s.pcs && CanGet(s.entries, inum) && inum in s.disk && (s.pcs[h] == Fresh(inum) || s.pcs[h].Idle?)
    requires Guards(DoGet(s, h, inum), x)
    ensures SureAt(DoGet(s, h, inum), x)
  {
    var t, e := DoGet(s, h, inum), Slot(s.entries, inum);
    GotSlot(s, inum);
    hide Got, Slot, CanGet, LockOk, AgreeOk;
    if x != h {
      assert Guards(s, x) && SureAt(s, x);
      Counted(s, x);
    } else {
      forall g | g in t.pcs && g != h && t.pcs[g].Drop1? ensures t.pcs[g].e != e {
        assert PcOk(s, s.pcs[g]);
        Counted(s, g);
      }
    }
  }

  lemma DupSure(s: State, h: Handle, g: Handle, x: Handle)
    requires Inv(s) && SureOk(s) && Enabled(s, h, Dup(g)) && Guards(Step(s, h, Dup(g)), x)
    ensures SureAt(Step(s, h, Dup(g)), x)
  {
    hide LockOk, AgreeOk, EntriesOk, PcsOk;
    if x == g { assert Guards(s, h) && SureAt(s, h); } else { assert Guards(s, x) && SureAt(s, x); }
  }

  lemma AllocSure(s: State, h: Handle, inum: Id, kind: nat, x: Handle)
    requires Inv(s) && SureOk(s) && Enabled(s, h, Alloc(inum, kind)) && Guards(Step(s, h, Alloc(inum, kind)), x)
    ensures SureAt(Step(s, h, Alloc(inum, kind)), x)
  {
    hide LockOk, AgreeOk, EntriesOk, PcsOk;
    assert Guards(s, x) && SureAt(s, x);
  }

  /** Steps that move h and change its entry in memory, but neither the disk nor anybody's number. */
  lemma QuietSure(s: State, t: State, h: Handle, x: Handle)
    requires SureOk(s) && h in s.pcs && h in t.pcs && t.pcs == s.pcs[h := t.pcs[h]] && t.sure == s.sure && t.disk == s.disk
    requires |t.entries| == |s.entries| && forall e :: 0 <= e < |s.entries| ==> t.entries[e].inum == s.entries[e].inum
    requires Refers(t.pcs[h]) ==> Refers(s.pcs[h]) && t.pcs[h].e == s.pcs[h].e && !t.pcs[h].Panicked? && (Freed(s.pcs[h]) ==> Freed(t.pcs[h]))
    requires t.pcs[h].Drop1? && !s.pcs[h].Drop1? ==> forall g :: g in s.pcs && g != h && Refers(s.pcs[g]) ==> s.pcs[g].e != t.pcs[h].e
    requires Guards(t, x)
    ensures SureAt(t, x)
  {
    assert Guards(s, x) && SureAt(s, x);
  }

  lemma PutSure(s: State, h: Handle, x: Handle)
    requires Inv(s) && SureOk(s) && Enabled(s, h, Put) && Guards(Step(s, h, Put), x)
    ensures SureAt(Step(s, h, Put), x)
  {
    var e := s.pcs[h].e;
    if s.entries[e].ref == 1 {
      forall g | g in s.pcs && g != h && Refers(s.pcs[g]) ensures s.pcs[g].e != e {
        assert PcOk(s, s.pcs[g]);
        if s.pcs[g].e == e { Alone(s, h, g); }
      }
    }
    hide Inv;
    QuietSure(s, Step(s, h, Put), h, x);
  }

  lemma UpdateSure(s: State, h: Handle, x: Handle)
    requires Inv(s) && SureOk(s) && Enabled(s, h, Go) && (s.pcs[h].Dirty? || s.pcs[h].Drop1?) && Guards(Step(s, h, Go), x)
    ensures SureAt(Step(s, h, Go), x)
  {
    hide LockOk, AgreeOk;
    assert PcOk(s, s.pcs[h]);
    assert Guards(s, x) && SureAt(s, x);
    if x != h && s.entries[s.pcs[x].e].inum == s.entries[s.pcs[h].e].inum { SameEntry(s, x, h); }
    hide EntriesOk, PcsOk;
  }

  lemma LoadSure(s: State, h: Handle, x: Handle)
    requires Inv(s) && SureOk(s) && Enabled(s, h, Go) && s.pcs[h].Loading? && Guards(Step(s, h, Go), x)
    ensures SureAt(Step(s, h, Go), x)
  {
    assert PcOk(s, s.pcs[h]);
    hide Inv;
    assert Guards(s, x) && SureAt(s, x);
  }

  lemma StepSure(s: State, h: Handle, a: Act)
    requires Inv(s) && SureOk(s) && Enabled(s, h, a)
    ensures SureOk(Step(s, h, a))
  {
    hide Inv, SureAt;
    var t := Step(s, h, a);
    forall x | Guards(t, x) ensures SureAt(t, x) { StepSureAt(s, h, a, x); }
  }

  lemma StepSureAt(s: State, h: Handle, a: Act, x: Handle)
    requires Inv(s) && SureOk(s) && Enabled(s, h, a) && Guards(Step(s, h, a), x)
    ensures SureAt(Step(s, h, a), x)
  {
    hide Inv, SureAt, SureOk, CanGet;
    match a
    case Get(inum) => GetSure(s, h, inum, x);
    case Alloc(inum, kind) => AllocSure(s, h, inum, kind, x);
    case Dup(g) => DupSure(s, h, g, x);
    case Put => PutSure(s, h, x);
    case Go =>
      match s.pcs[h] {
        case Fresh(inum) => AtHandle(s, h); GetSure(s, h, inum, x);
        case Loading(_) => LoadSure(s, h, x);
        case Dirty(_) => UpdateSure(s, h, x);
        case Drop1(_) => UpdateSure(s, h, x);
        case Drop2(_) => QuietSure(s, Step(s, h, Go), h, x);
        case Drop3(_) => QuietSure(s, Step(s, h, Go), h, x);
        case Drop4(_) => QuietSure(s, Step(s, h, Go), h, x);
        case _ =>
      }
    case _ => QuietSure(s, Step(s, h, a), h, x);
  }

  lemma {:induction false} RunSure(run: seq<State>, i: nat)
    requires IsRun(run) && i < |run|
    ensures Inv(run[i]) && SureOk(run[i])
    decreases i
  {
    hide Inv, Enabled, Step, SureAt;
    RunInv(run, i);
    if i > 0 {
      RunSure(run, i - 1);
      assert Next(run[i - 1], run[i]);
      var h, a :| Moves(run[i - 1], h, a, run[i]);
      StepSure(run[i - 1], h, a);
    }
  }

  /** In every run, whatever the others do, a handle got at a secure moment never meets a free inode;
      and iput's acquiresleep inside the table's lock never waits. */
  lemma SureNeverPanics(run: seq<State>, i: nat, h: Handle)
    requires IsRun(run) && i < |run| && h in run[i].pcs && Refers(run[i].pcs[h])
    ensures var s, e := run[i], run[i].pcs[h].e;
      && e < |s.entries| && e < |s.lock|
      && (h in s.sure && !Freed(s.pcs[h]) ==> !s.pcs[h].Panicked? && s.entries[e].inum in s.disk && s.disk[s.entries[e].inum].kind != 0)
      && (s.pcs[h].Ref? && s.entries[e].ref == 1 ==> s.lock[e].None?)
  {
    RunSure(run, i);
    hide Inv;
    AtHandle(run[i], h);
    assert h in run[i].sure && !Freed(run[i].pcs[h]) ==> Guards(run[i], h);
  }

  /** What a directory guarantees is enough: a number that a link names, or that a sure handle uses, is
      secure. */
  lemma LinkedIsSecure(run: seq<State>, i: nat, inum: Id)
    requires IsRun(run) && i < |run| && inum in run[i].disk && run[i].disk[inum].kind != 0
    requires run[i].disk[inum].nlink > 0 || exists g :: UsedBy(run[i], g, inum)
    ensures Secure(run[i], inum)
  {
    RunSure(run, i);
    var s := run[i];
    hide LockOk, AgreeOk;
    forall g | g in s.pcs && s.pcs[g].Drop1? && s.pcs[g].e < |s.entries| ensures s.entries[s.pcs[g].e].inum != inum {
      assert PcOk(s, s.pcs[g]);
      if s.disk[inum].nlink == 0 && s.entries[s.pcs[g].e].inum == inum {
        var x :| UsedBy(s, x, inum);
        assert Guards(s, x) && SureAt(s, x);
        SameEntry(s, x, g);
      }
    }
  }

  /** A sure handle refers to the inode and is not freeing it. */
  ghost predicate UsedBy(s: State, g: Handle, inum: Id) {
    Guards(s, g) && !s.pcs[g].Drop1? && s.pcs[g].e < |s.entries| && s.entries[s.pcs[g].e].inum == inum
  }

  // ---------------------------------------------------------------- the exact condition

  /** The step is one of another handle, or h goes on with its ilock. */
  predicate GoesOn(s: State, g: Handle, a: Act, h: Handle) {
    g != h || a.Lock? || (a.Go? && h in s.pcs && s.pcs[h].Loading?)
  }

  /** Within n steps the ilock of h can meet a free inode. */
  ghost predicate PanicsWithin(s: State, h: Handle, n: nat)
    decreases n
  {
    || (h in s.pcs && s.pcs[h].Panicked?)
    || (n > 0 && exists g, a :: Leads(s, g, a, h, n))
  }

  ghost predicate Leads(s: State, g: Handle, a: Act, h: Handle, n: nat)
    requires n > 0
    decreases n, 0
  {
    Enabled(s, g, a) && GoesOn(s, g, a, h) && PanicsWithin(Step(s, g, a), h, n - 1)
  }

  lemma Leading(s: State, g: Handle, a: Act, h: Handle, n: nat)
    requires Enabled(s, g, a) && GoesOn(s, g, a, h) && PanicsWithin(Step(s, g, a), h, n)
    ensures PanicsWithin(s, h, n + 1)
  {
    hide Enabled, GoesOn, Step;
    assert Leads(s, g, a, h, n + 1);
  }

  lemma {:induction false} SureCannot(s: State, h: Handle, n: nat)
    requires Inv(s) && SureOk(s) && h in s.sure && h in s.pcs && (s.pcs[h].Ref? || s.pcs[h].Loading? || s.pcs[h].Locked?)
    ensures !PanicsWithin(s, h, n)
    decreases n
  {
    hide Inv, SureAt;
    if n > 0 {
      forall g, a | Enabled(s, g, a) && GoesOn(s, g, a, h) ensures !PanicsWithin(Step(s, g, a), h, n - 1) {
        StepInv(s, g, a);
        StepSure(s, g, a);
        StaysSure(s, g, a, h);
        SureCannot(Step(s, g, a), h, n - 1);
      }
      hide Enabled, GoesOn, Step;
      assert forall g, a :: !Leads(s, g, a, h, n);
    }
  }

  lemma StaysSure(s: State, g: Handle, a: Act, h: Handle)
    requires Inv(s) && SureOk(s) && h in s.sure && h in s.pcs && (s.pcs[h].Ref? || s.pcs[h].Loading? || s.pcs[h].Locked?)
    requires Enabled(s, g, a) && GoesOn(s, g, a, h)
    ensures var t := Step(s, g, a); h in t.sure && h in t.pcs && (t.pcs[h].Ref? || t.pcs[h].Loading? || t.pcs[h].Locked?)
  {
    hide LockOk, EntriesOk, AgreeOk;
    assert Guards(s, h) && SureAt(s, h);
    hide PcsOk;
  }

  /** Every reference is sure: no iget so far was made at another moment. */
  ghost predicate AllSure(s: State) {
    forall g :: g in s.pcs && Refers(s.pcs[g]) && !Freed(s.pcs[g]) ==> g in s.sure
  }

  lemma PanickedNow(s: State, h: Handle)
    requires h in s.pcs && s.pcs[h].Panicked?
    ensures PanicsWithin(s, h, 0)
  {
  }

  lemma LoadPanics(s: State, h: Handle, e: nat)
    requires h in s.pcs && s.pcs[h] == Loading(e) && e < |s.entries| && e < |s.lock| && !s.entries[e].valid
    requires s.entries[e].inum in s.disk && s.disk[s.entries[e].inum].kind == 0
    ensures PanicsWithin(s, h, 1)
  {
    hide PanicsWithin;
    PanickedNow(Step(s, h, Go), h);
    Leading(s, h, Go, h, 0);
  }

  lemma LockPanics(s: State, h: Handle, e: nat)
    requires h in s.pcs && s.pcs[h] == Ref(e) && e < |s.entries| && e < |s.lock| && !s.entries[e].valid && s.lock[e].None?
    requires s.entries[e].inum in s.disk && s.disk[s.entries[e].inum].kind == 0
    ensures PanicsWithin(s, h, 2)
  {
    hide PanicsWithin;
    LoadPanics(Step(s, h, Lock), h, e);
    Leading(s, h, Lock, h, 1);
  }

  lemma Drop3Panics(s: State, h: Handle, g: Handle, e: nat)
    requires h in s.pcs && g in s.pcs && g != h && s.pcs[h] == Ref(e) && s.pcs[g] == Drop3(e) && e < |s.entries| && e < |s.lock| && !s.entries[e].valid
    requires s.entries[e].inum in s.disk && s.disk[s.entries[e].inum].kind == 0
    ensures PanicsWithin(s, h, 3)
  {
    hide PanicsWithin;
    LockPanics(Step(s, g, Go), h, e);
    Leading(s, g, Go, h, 2);
  }

  lemma Drop2Panics(s: State, h: Handle, g: Handle, e: nat)
    requires h in s.pcs && g in s.pcs && g != h && s.pcs[h] == Ref(e) && s.pcs[g] == Drop2(e) && e < |s.entries| && e < |s.lock|
    requires s.entries[e].inum in s.disk && s.disk[s.entries[e].inum].kind == 0
    ensures PanicsWithin(s, h, 4)
  {
    hide PanicsWithin;
    Drop3Panics(Step(s, g, Go), h, g, e);
    Leading(s, g, Go, h, 3);
  }

  lemma Drop1Panics(s: State, h: Handle, g: Handle, e: nat)
    requires h in s.pcs && g in s.pcs && g != h && s.pcs[h] == Ref(e) && s.pcs[g] == Drop1(e) && e < |s.entries| && e < |s.lock|
    requires s.entries[e].inum in s.disk
    ensures PanicsWithin(s, h, 5)
  {
    hide PanicsWithin;
    Drop2Panics(Step(s, g, Go), h, g, e);
    Leading(s, g, Go, h, 4);
  }

  /** An iget at any other moment: the others go on, and its ilock meets a free inode. */
  lemma InsecurePanics(s: State, h: Handle, inum: Id) returns (n: nat)
    requires Inv(s) && SureOk(s) && AllSure(s) && Enabled(s, h, Get(inum)) && !Secure(s, inum)
    ensures PanicsWithin(DoGet(s, h, inum), h, n)
  {
    var t, e := DoGet(s, h, inum), Slot(s.entries, inum);
    GetInv(s, h, inum);
    GotSlot(s, inum);
    hide Got, Slot, CanGet;
    assert PcOk(t, t.pcs[h]);
    if s.disk[inum].kind != 0 {
      var g :| g in s.pcs && s.pcs[g].Drop1? && s.pcs[g].e < |s.entries| && s.entries[s.pcs[g].e].inum == inum;
      Counted(s, g);
      assert s.pcs[g].e == e;
      Drop1Panics(t, h, g, e);
      n := 5;
    } else if t.lock[e].None? {
      LockPanics(t, h, e);
      n := 2;
    } else {
      var g := t.lock[e].value;
      FreeHolder(s, t, h, g, e);
      if s.pcs[g].Drop2? { Drop2Panics(t, h, g, e); n := 4; } else { Drop3Panics(t, h, g, e); n := 3; }
    }
  }

  /** Who holds the sleep-lock of a free inode is on its way out. */
  lemma FreeHolder(s: State, t: State, h: Handle, g: Handle, e: nat)
    requires Inv(s) && Inv(t) && SureOk(s) && AllSure(s) && h in s.pcs && s.pcs[h].Idle? && t.pcs == s.pcs[h := Ref(e)] && t.disk == s.disk
    requires |t.entries| == |s.entries| && e < |s.entries| && t.lock == s.lock && t.lock[e] == Some(g) && s.entries[e].inum == t.entries[e].inum
    requires t.entries[e].inum in s.disk && s.disk[t.entries[e].inum].kind == 0
    ensures g != h && g in s.pcs && s.pcs[g].e == e && (s.pcs[g].Drop2? || s.pcs[g].Drop3?)
    ensures t.pcs[g].Drop3? ==> !t.entries[e].valid
  {
    hide EntriesOk, AgreeOk;
    assert PcOk(t, t.pcs[g]);
    hide PcsOk;
    assert !Freed(s.pcs[g]) ==> Guards(s, g);
  }

  /** The exact condition. In a run whose references so far were got at secure moments, the next iget is
      at a secure moment if and only if its ilock can never meet a free inode. */
  lemma NoPanicInIlock(run: seq<State>, i: nat, h: Handle, inum: Id)
    requires IsRun(run) && i < |run| && AllSure(run[i]) && Enabled(run[i], h, Get(inum))
    ensures Secure(run[i], inum) <==> forall n :: n >= 0 ==> !PanicsWithin(DoGet(run[i], h, inum), h, n)
  {
    RunSure(run, i);
    var s := run[i];
    hide Inv, SureAt, PanicsWithin, CanGet;
    if Secure(s, inum) {
      StepInv(s, h, Get(inum));
      StepSure(s, h, Get(inum));
      forall n | n >= 0 ensures !PanicsWithin(DoGet(s, h, inum), h, n) { SureCannot(DoGet(s, h, inum), h, n); }
    } else {
      var n := InsecurePanics(s, h, inum);
    }
  }

  // ---------------------------------------------------------------- it happens

  const Dir: Id := Id(1, 1)

  /** One inode, two handles: the inode on disk, its entry, the sleep-lock, where the handles are. */
  function Scene(d: Dinode, x: Entry, l: Option<Handle>, p0: Pc, p1: Pc, sure: set<Handle>): State {
    State([x], [l], map[Dir := d], map[0 := p0, 1 := p1], sure)
  }

  /** Handle 1 removes the last link of a directory (as sys_unlink does) and its iput frees it. Handle 0
      then gets the number, as a walk through ".." of a directory that was in it does, and locks it. */
  function Moment(i: nat): State {
    var a, u, z := Dinode(1, 1, 0), Dinode(1, 0, 0), Dinode(0, 0, 0);
    match i
    case 0 => Scene(a, Entry(Dir, 0, false, a), None, Idle, Idle, {})
    case 1 => Scene(a, Entry(Dir, 1, false, a), None, Idle, Ref(0), {1})
    case 2 => Scene(a, Entry(Dir, 1, false, a), Some(1), Idle, Loading(0), {1})
    case 3 => Scene(a, Entry(Dir, 1, true, a), Some(1), Idle, Locked(0), {1})
    case 4 => Scene(a, Entry(Dir, 1, true, u), Some(1), Idle, Dirty(0), {1})
    case 5 => Scene(u, Entry(Dir, 1, true, u), Some(1), Idle, Locked(0), {1})
    case 6 => Scene(u, Entry(Dir, 1, true, u), None, Idle, Ref(0), {1})
    case 7 => Scene(u, Entry(Dir, 1, true, u), Some(1), Idle, Drop1(0), {1})
    case 8 => Scene(z, Entry(Dir, 1, true, z), Some(1), Idle, Drop2(0), {1})
    case 9 => Scene(z, Entry(Dir, 1, false, z), Some(1), Idle, Drop3(0), {1})
    case 10 => Scene(z, Entry(Dir, 1, false, z), None, Idle, Drop4(0), {1})
    case 11 => Scene(z, Entry(Dir, 0, false, z), None, Idle, Idle, {1})
    case 12 => Scene(z, Entry(Dir, 1, false, z), None, Ref(0), Idle, {1})
    case 13 => Scene(z, Entry(Dir, 1, false, z), Some(0), Loading(0), Idle, {1})
    case _ => Scene(z, Entry(Dir, 1, true, z), Some(0), Panicked(0), Idle, {1})
  }

  function RemovedParent(): seq<State> { seq(15, i requires 0 <= i => Moment(i)) }

  lemma SceneGet(d: Dinode, m: Dinode, sure: set<Handle>)
    ensures var s := Scene(d, Entry(Dir, 0, false, m), None, Idle, Idle, sure);
      && (d.kind != 0 ==> Next(s, Scene(d, Entry(Dir, 1, false, m), None, Idle, Ref(0), sure + {1})))
      && (d.kind == 0 ==> Next(s, Scene(d, Entry(Dir, 1, false, m), None, Ref(0), Idle, sure - {0})))
  {
    var s := Scene(d, Entry(Dir, 0, false, m), None, Idle, Idle, sure);
    assert Find(s.entries, Dir, 0) == 1 && FindFree(s.entries, 0) == 0;
    if d.kind != 0 {
      assert Moves(s, 1, Get(Dir), Scene(d, Entry(Dir, 1, false, m), None, Idle, Ref(0), sure + {1}));
    } else {
      assert Moves(s, 0, Get(Dir), Scene(d, Entry(Dir, 1, false, m), None, Ref(0), Idle, sure - {0}));
    }
  }

  lemma SceneLock(d: Dinode, x: Entry, sure: set<Handle>)
    ensures Next(Scene(d, x, None, Idle, Ref(0), sure), Scene(d, x, Some(1), Idle, Loading(0), sure))
    ensures Next(Scene(d, x, None, Ref(0), Idle, sure), Scene(d, x, Some(0), Loading(0), Idle, sure))
    ensures Next(Scene(d, x, Some(1), Idle, Locked(0), sure), Scene(d, x, None, Idle, Ref(0), sure))
  {
    assert Moves(Scene(d, x, None, Idle, Ref(0), sure), 1, Lock, Scene(d, x, Some(1), Idle, Loading(0), sure));
    assert Moves(Scene(d, x, None, Ref(0), Idle, sure), 0, Lock, Scene(d, x, Some(0), Loading(0), Idle, sure));
    assert Moves(Scene(d, x, Some(1), Idle, Locked(0), sure), 1, Unlock, Scene(d, x, None, Idle, Ref(0), sure));
  }

  lemma SceneLoad(d: Dinode, m: Dinode, sure: set<Handle>)
    ensures d.kind != 0 ==>
      Next(Scene(d, Entry(Dir, 1, false, m), Some(1), Idle, Loading(0), sure), Scene(d, Entry(Dir, 1, true, d), Some(1), Idle, Locked(0), sure))
    ensures d.kind == 0 ==>
      Next(Scene(d, Entry(Dir, 1, false, m), Some(0), Loading(0), Idle, sure), Scene(d, Entry(Dir, 1, true, d), Some(0), Panicked(0), Idle, sure))
  {
    if d.kind != 0 {
      assert Moves(Scene(d, Entry(Dir, 1, false, m), Some(1), Idle, Loading(0), sure), 1, Go, Scene(d, Entry(Dir, 1, true, d), Some(1), Idle, Locked(0), sure));
    } else {
      assert Moves(Scene(d, Entry(Dir, 1, false, m), Some(0), Loading(0), Idle, sure), 0, Go, Scene(d, Entry(Dir, 1, true, d), Some(0), Panicked(0), Idle, sure));
    }
  }

  lemma SceneWrite(d: Dinode, d': Dinode, sure: set<Handle>)
    requires d'.kind != 0
    ensures Next(Scene(d, Entry(Dir, 1, true, d), Some(1), Idle, Locked(0), sure), Scene(d, Entry(Dir, 1, true, d'), Some(1), Idle, Dirty(0), sure))
    ensures Next(Scene(d, Entry(Dir, 1, true, d'), Some(1), Idle, Dirty(0), sure), Scene(d', Entry(Dir, 1, true, d'), Some(1), Idle, Locked(0), sure))
  {
    assert Moves(Scene(d, Entry(Dir, 1, true, d), Some(1), Idle, Locked(0), sure), 1, Write(d'), Scene(d, Entry(Dir, 1, true, d'), Some(1), Idle, Dirty(0), sure));
    assert Moves(Scene(d, Entry(Dir, 1, true, d'), Some(1), Idle, Dirty(0), sure), 1, Go, Scene(d', Entry(Dir, 1, true, d'), Some(1), Idle, Locked(0), sure));
  }

  lemma SceneDrop(u: Dinode, sure: set<Handle>)
    requires u.nlink == 0
    ensures var z := Dinode(0, 0, 0);
      && Next(Scene(u, Entry(Dir, 1, true, u), None, Idle, Ref(0), sure), Scene(u, Entry(Dir, 1, true, u), Some(1), Idle, Drop1(0), sure))
      && Next(Scene(u, Entry(Dir, 1, true, u), Some(1), Idle, Drop1(0), sure), Scene(z, Entry(Dir, 1, true, z), Some(1), Idle, Drop2(0), sure))
  {
    var z := Dinode(0, 0, 0);
    assert Moves(Scene(u, Entry(Dir, 1, true, u), None, Idle, Ref(0), sure), 1, Put, Scene(u, Entry(Dir, 1, true, u), Some(1), Idle, Drop1(0), sure));
    assert Moves(Scene(u, Entry(Dir, 1, true, u), Some(1), Idle, Drop1(0), sure), 1, Go, Scene(z, Entry(Dir, 1, true, z), Some(1), Idle, Drop2(0), sure));
  }

  lemma SceneGone(z: Dinode, sure: set<Handle>)
    ensures Next(Scene(z, Entry(Dir, 1, true, z), Some(1), Idle, Drop2(0), sure), Scene(z, Entry(Dir, 1, false, z), Some(1), Idle, Drop3(0), sure))
    ensures Next(Scene(z, Entry(Dir, 1, false, z), Some(1), Idle, Drop3(0), sure), Scene(z, Entry(Dir, 1, false, z), None, Idle, Drop4(0), sure))
    ensures Next(Scene(z, Entry(Dir, 1, false, z), None, Idle, Drop4(0), sure), Scene(z, Entry(Dir, 0, false, z), None, Idle, Idle, sure))
  {
    assert Moves(Scene(z, Entry(Dir, 1, true, z), Some(1), Idle, Drop2(0), sure), 1, Go, Scene(z, Entry(Dir, 1, false, z), Some(1), Idle, Drop3(0), sure));
    assert Moves(Scene(z, Entry(Dir, 1, false, z), Some(1), Idle, Drop3(0), sure), 1, Go, Scene(z, Entry(Dir, 1, false, z), None, Idle, Drop4(0), sure));
    assert Moves(Scene(z, Entry(Dir, 1, false, z), None, Idle, Drop4(0), sure), 1, Go, Scene(z, Entry(Dir, 0, false, z), None, Idle, Idle, sure));
  }

  lemma MomentNext(i: nat)
    requires i < 14
    ensures Next(Moment(i), Moment(i + 1))
  {
    var a, u, z := Dinode(1, 1, 0), Dinode(1, 0, 0), Dinode(0, 0, 0);
    hide Next, Scene;
    assert {} + {1} == {1} && {1} - {0} == {1};
    match i
    case 0 => SceneGet(a, a, {});
    case 1 => SceneLock(a, Entry(Dir, 1, false, a), {1});
    case 2 => SceneLoad(a, a, {1});
    case 3 => SceneWrite(a, u, {1});
    case 4 => SceneWrite(a, u, {1});
    case 5 => SceneLock(u, Entry(Dir, 1, true, u), {1});
    case 6 => SceneDrop(u, {1});
    case 7 => SceneDrop(u, {1});
    case 8 => SceneGone(z, {1});
    case 9 => SceneGone(z, {1});
    case 10 => SceneGone(z, {1});
    case 11 => SceneGet(z, z, {1});
    case 12 => SceneLock(z, Entry(Dir, 1, false, z), {1});
    case _ => SceneLoad(z, z, {1});
  }

  lemma RemovedParentPanics()
    ensures var run := RemovedParent();
      IsRun(run) && run[0].disk[Dir].nlink == 1 && run[11].disk[Dir].kind == 0 && run[14].pcs[0] == Panicked(0)
  {
    var run := RemovedParent();
    SceneStart(Dinode(1, 1, 0));
    hide Next, Init;
    forall i | 0 <= i < |run| - 1 ensures Next(run[i], run[i + 1]) { MomentNext(i); }
  }

  lemma SceneStart(a: Dinode)
    ensures Init(Scene(a, Entry(Dir, 0, false, a), None, Idle, Idle, {}))
  {
  }
}
