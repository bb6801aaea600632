/** kalloc and kfree on all CPUs at once. A step is what happens under one list's lock; between two
    steps of a kalloc that looks for a page to steal, the other threads may do anything. */
module PercpuRuns {
  import opened Common
  import opened PercpuPages

  type Thread = nat

  /** A thread is outside, in kalloc on its own list, or stealing for CPU sid and at list id. */
  datatype Pc = Idle | Own(cid: nat) | Scan(sid: nat, id: nat)

  /** hands[t] are the pages that thread t got and has not given away. */
  datatype State = State(lists: seq<seq<nat>>, pcs: map<Thread, Pc>, hands: map<Thread, set<nat>>)

  datatype Act = Alloc(cid: nat) | Go | Free(pa: nat, id: nat) | Pass(pa: nat, t: Thread)

  predicate Enabled(l: Layout, s: State, t: Thread, a: Act) {
    t in s.pcs && t in s.hands && |s.lists| == l.ncpu &&
    match a
    case Alloc(cid) => s.pcs[t].Idle? && cid < l.ncpu
    case Go => !s.pcs[t].Idle?
    case Free(pa, id) => s.pcs[t].Idle? && pa in s.hands[t] && id < l.ncpu
    case Pass(pa, t') => s.pcs[t].Idle? && pa in s.hands[t] && t' in s.hands
  }

  function Pop(s: State, t: Thread, id: nat): State
    requires t in s.hands && id < |s.lists| && s.lists[id] != []
  {
    State(s.lists[id := s.lists[id][1..]], s.pcs[t := Idle], s.hands[t := s.hands[t] + {s.lists[id][0]}])
  }

  function Step(l: Layout, s: State, t: Thread, a: Act): State
    requires Enabled(l, s, t, a)
  {
    match a
    case Alloc(cid) => s.(pcs := s.pcs[t := Own(cid)])
    case Free(pa, id) => s.(lists := s.lists[id := [pa] + s.lists[id]], hands := s.hands[t := s.hands[t] - {pa}])
    case Pass(pa, t') =>
      var h := s.hands[t := s.hands[t] - {pa}];
      s.(hands := h[t' := h[t'] + {pa}])
    case Go =>
      match s.pcs[t]
      case Own(cid) =>
        if cid < |s.lists| && s.lists[cid] != [] then Pop(s, t, cid) else s.(pcs := s.pcs[t := Scan(cid, 0)])
      case Scan(sid, id) =>
        if id >= |s.lists| then s.(pcs := s.pcs[t := Idle])
        else if id != sid && s.lists[id] != [] then Pop(s, t, id)
        else s.(pcs := s.pcs[t := Scan(sid, id + 1)])
      case Idle => s
  }

  /** Every page is on one list once, or in one hand, and never both. */
  ghost predicate Inv(l: Layout, pages: set<nat>, s: State) {
    && |s.lists| == l.ncpu && Once(s.lists)
    && (forall t, t' :: t in s.hands && t' in s.hands && t != t' ==> s.hands[t] !! s.hands[t'])
    && (forall t, p :: t in s.hands && p in s.hands[t] ==> !OnList(s.lists, p))
    && forall p :: p in pages <==> OnList(s.lists, p) || InHand(s, p)
  }

  ghost predicate InHand(s: State, p: nat) { exists t :: t in s.hands && p in s.hands[t] }

  ghost predicate Next(l: Layout, s: State, t: State) { exists h, a :: Moves(l, s, h, a, t) }

  /** kfree uses the list that pa2cpuid selects. */
  ghost predicate Moves(l: Layout, s: State, h: Thread, a: Act, t: State) {
    && Enabled(l, s, h, a) && t == Step(l, s, h, a)
    && (a.Free? ==> l.Ok() && SelectedBy(l, a.pa, a.id))
  }

  /** After kinit: the pages of the parts on the lists, nobody inside, empty hands. */
  ghost predicate Init(l: Layout, pages: set<nat>, s: State) {
    && l.Ok() && l.ncpu <= PGSIZE && |s.lists| == l.ncpu && Once(s.lists)
    && (forall p :: p in pages <==> Given(l, l.ncpu, p)) && (forall p :: OnList(s.lists, p) <==> p in pages)
    && (forall t :: t in s.pcs ==> s.pcs[t].Idle?) && (forall t :: t in s.hands ==> s.hands[t] == {})
  }

  ghost predicate IsRun(l: Layout, pages: set<nat>, run: seq<State>) {
    |run| > 0 && Init(l, pages, run[0]) && forall i :: 0 <= i < |run| - 1 ==> Next(l, run[i], run[i + 1])
  }

  lemma PopInv(l: Layout, pages: set<nat>, s: State, t: Thread, id: nat)
    requires Inv(l, pages, s) && t in s.hands && id < |s.lists| && s.lists[id] != []
    ensures Inv(l, pages, Pop(s, t, id))
  {
    hide Once, OnList;
    var u, p := Pop(s, t, id), s.lists[id][0];
    PopOnce(s.lists, id);
    assert OnList(s.lists, p) by { HeadOnList(s.lists, id); }
    assert forall t' :: t' in s.hands ==> p !in s.hands[t'];
    forall a, b | a in u.hands && b in u.hands && a != b ensures u.hands[a] !! u.hands[b] { assert s.hands[a] !! s.hands[b]; }
    forall t', q | t' in u.hands && q in u.hands[t'] ensures !OnList(u.lists, q) {
      assert OnList(u.lists, q) <==> OnList(s.lists, q) && q != p;
      assert q in s.hands[t'] || q == p;
    }
    forall q ensures InHand(u, q) <==> InHand(s, q) || q == p {
      if InHand(s, q) { var t' :| t' in s.hands && q in s.hands[t']; assert q in u.hands[t']; }
      if q == p { assert q in u.hands[t]; }
    }
  }

  lemma HeadOnList(lists: seq<seq<nat>>, i: nat)
    requires i < |lists| && lists[i] != []
    ensures OnList(lists, lists[i][0])
  {
    assert lists[i][0] in lists[i];
  }

  lemma FreeInv(l: Layout, pages: set<nat>, s: State, t: Thread, pa: nat, id: nat)
    requires Inv(l, pages, s) && Enabled(l, s, t, Free(pa, id))
    ensures Inv(l, pages, Step(l, s, t, Free(pa, id)))
  {
    hide Once, OnList;
    var u := Step(l, s, t, Free(pa, id));
    PushOnce(s.lists, id, pa);
    forall q ensures InHand(s, q) <==> InHand(u, q) || q == pa {
      if InHand(s, q) && q != pa { var t' :| t' in s.hands && q in s.hands[t']; assert q in u.hands[t']; }
    }
    forall t', p | t' in u.hands && p in u.hands[t'] ensures !OnList(u.lists, p) {
      assert p in s.hands[t'];
      assert t' != t ==> s.hands[t] !! s.hands[t'];
      assert p != pa;
      assert OnList(u.lists, p) <==> OnList(s.lists, p) || p == pa;
    }
  }

  lemma PassInv(l: Layout, pages: set<nat>, s: State, t: Thread, pa: nat, t': Thread)
    requires Inv(l, pages, s) && Enabled(l, s, t, Pass(pa, t'))
    ensures Inv(l, pages, Step(l, s, t, Pass(pa, t')))
  {
    hide Once, OnList;
    var u := Step(l, s, t, Pass(pa, t'));
    forall q ensures InHand(s, q) <==> InHand(u, q) {
      if InHand(s, q) {
        var x :| x in s.hands && q in s.hands[x];
        if q == pa { assert q in u.hands[t']; } else { assert q in u.hands[x]; }
      }
    }
  }

  lemma StepInv(l: Layout, pages: set<nat>, s: State, t: Thread, a: Act)
    requires Inv(l, pages, s) && Enabled(l, s, t, a)
    ensures Inv(l, pages, Step(l, s, t, a))
  {
    var u := Step(l, s, t, a);
    match a
    case Free(pa, id) => FreeInv(l, pages, s, t, pa, id);
    case Pass(pa, t') => PassInv(l, pages, s, t, pa, t');
    case Alloc(cid) => SameInv(l, pages, s, u);
    case Go =>
      if u.lists == s.lists && u.hands == s.hands { SameInv(l, pages, s, u); }
      else { PopInv(l, pages, s, t, if s.pcs[t].Own? then s.pcs[t].cid else s.pcs[t].id); }
  }

  lemma SameInv(l: Layout, pages: set<nat>, s: State, u: State)
    requires Inv(l, pages, s) && u.lists == s.lists && u.hands == s.hands
    ensures Inv(l, pages, u)
  {
    assert forall p :: InHand(u, p) <==> InHand(s, p);
  }

  lemma {:induction false} RunInv(l: Layout, pages: set<nat>, run: seq<State>, i: nat)
    requires IsRun(l, pages, run) && i < |run|
    ensures Inv(l, pages, run[i])
    decreases i
  {
    if i == 0 {
      assert forall p :: !InHand(run[0], p);
    } else {
      RunInv(l, pages, run, i - 1);
      assert Next(l, run[i - 1], run[i]);
      var h, a :| Moves(l, run[i - 1], h, a, run[i]);
      StepInv(l, pages, run[i - 1], h, a);
    }
  }

  ghost predicate ListPlace(s: State, p: nat, i: int, j: int) { 0 <= i < |s.lists| && 0 <= j < |s.lists[i]| && s.lists[i][j] == p }

  /** In every run, with stealing, a page that kinit put on a list is at one place of one list, or
      held by one thread, and not both; no other page is ever handed out. */
  lemma EachPageOnce(l: Layout, pages: set<nat>, run: seq<State>, n: nat, p: nat)
    requires IsRun(l, pages, run) && n < |run|
    ensures var s := run[n];
      && (p in pages <==> (exists i, j :: ListPlace(s, p, i, j)) || InHand(s, p))
      && !((exists i, j :: ListPlace(s, p, i, j)) && InHand(s, p))
      && (forall i, j, i', j' :: ListPlace(s, p, i, j) && ListPlace(s, p, i', j') ==> i == i' && j == j')
      && (forall t, t' :: t in s.hands && t' in s.hands && p in s.hands[t] && p in s.hands[t'] ==> t == t')
  {
    RunInv(l, pages, run, n);
    var s := run[n];
    assert OnList(s.lists, p) <==> exists i, j :: ListPlace(s, p, i, j) by {
      if OnList(s.lists, p) {
        var i :| 0 <= i < |s.lists| && p in s.lists[i];
        var j :| 0 <= j < |s.lists[i]| && s.lists[i][j] == p;
        assert ListPlace(s, p, i, j);
      }
      if exists i, j :: ListPlace(s, p, i, j) { var i, j :| ListPlace(s, p, i, j); assert p in s.lists[i]; }
    }
    forall i, j, i', j' | ListPlace(s, p, i, j) && ListPlace(s, p, i', j') ensures i == i' && j == j' {
      assert p in s.lists[i] && p in s.lists[i'];
    }
  }

  /** A kfree of a page in hand never panics: pa2cpuid finds a list for it. */
  lemma FreeFindsList(l: Layout, pages: set<nat>, run: seq<State>, n: nat, t: Thread, p: nat)
    requires IsRun(l, pages, run) && n < |run| && t in run[n].hands && p in run[n].hands[t]
    ensures IsPage(l, p) && l.end <= p <= l.Start(l.ncpu)
  {
    RunInv(l, pages, run, n);
    assert InHand(run[n], p) && p in pages && Given(l, l.ncpu, p);
    EveryPageSelected(l, p);
  }

  // ---------------------------------------------------------------- when kalloc fails

  /** The list of CPU i was empty at moment m, and the thread has been in this kalloc since. */
  ghost predicate SeenEmpty(run: seq<State>, m: nat, n: nat, t: Thread, i: nat) {
    && m <= n < |run| && i < |run[m].lists| && run[m].lists[i] == []
    && forall x :: m <= x <= n ==> t in run[x].pcs && !run[x].pcs[t].Idle?
  }

  predicate BehindScan(pc: Pc, i: nat) { pc.Scan? && (i < pc.id || i == pc.sid) }

  lemma SeenLonger(run: seq<State>, m: nat, n: nat, t: Thread, i: nat)
    requires SeenEmpty(run, m, n, t, i) && n + 1 < |run| && t in run[n + 1].pcs && !run[n + 1].pcs[t].Idle?
    ensures SeenEmpty(run, m, n + 1, t, i)
  {
  }

  /** In every run the lists that a stealing kalloc has gone past, and its own, were empty when it looked
      at them. */
  lemma {:induction false} ScanSawEmpty(l: Layout, pages: set<nat>, run: seq<State>, n: nat, t: Thread, i: nat) returns (m: nat)
    requires IsRun(l, pages, run) && n < |run| && t in run[n].pcs && BehindScan(run[n].pcs[t], i) && i < l.ncpu
    ensures SeenEmpty(run, m, n, t, i)
    decreases n
  {
    hide IsRun, SeenEmpty;
    m := n;
    if n == 0 {
      NobodyAtBoot(l, pages, run, t);
    } else if t in run[n - 1].pcs && BehindScan(run[n - 1].pcs[t], i) {
      m := ScanSawEmpty(l, pages, run, n - 1, t, i);
      SeenLonger(run, m, n - 1, t, i);
    } else {
      m := n - 1;
      var h, a := MoveAt(l, pages, run, n - 1);
      LookedNow(l, run, n - 1, h, a, t, i);
      SeenLonger(run, m, n - 1, t, i);
    }
  }

  lemma NobodyAtBoot(l: Layout, pages: set<nat>, run: seq<State>, t: Thread)
    requires IsRun(l, pages, run)
    ensures t in run[0].pcs ==> run[0].pcs[t].Idle?
  {
  }

  lemma MoveAt(l: Layout, pages: set<nat>, run: seq<State>, n: nat) returns (h: Thread, a: Act)
    requires IsRun(l, pages, run) && n + 1 < |run|
    ensures Moves(l, run[n], h, a, run[n + 1]) && |run[n].lists| == l.ncpu
  {
    RunInv(l, pages, run, n);
    assert Next(l, run[n], run[n + 1]);
    h, a :| Moves(l, run[n], h, a, run[n + 1]);
  }

  lemma LookedNow(l: Layout, run: seq<State>, n: nat, h: Thread, a: Act, t: Thread, i: nat)
    requires n + 1 < |run| && Moves(l, run[n], h, a, run[n + 1]) && t in run[n + 1].pcs && BehindScan(run[n + 1].pcs[t], i) && i < |run[n].lists|
    requires t in run[n].pcs ==> !BehindScan(run[n].pcs[t], i)
    ensures SeenEmpty(run, n, n, t, i)
  {
  }

  /** kalloc returns without a page only if each CPU's list was empty when it looked there during the
      call. */
  lemma FailsOnlyIfEmpty(l: Layout, pages: set<nat>, run: seq<State>, n: nat, t: Thread, i: nat) returns (m: nat)
    requires IsRun(l, pages, run) && n + 1 < |run| && t in run[n].pcs && t in run[n + 1].pcs && i < l.ncpu
    requires !run[n].pcs[t].Idle? && run[n + 1].pcs[t].Idle? && t in run[n].hands && t in run[n + 1].hands && run[n + 1].hands[t] <= run[n].hands[t]
    ensures SeenEmpty(run, m, n, t, i)
  {
    RunInv(l, pages, run, n);
    var h, a := MoveAt(l, pages, run, n);
    hide IsRun, Inv, Moves, SeenEmpty;
    FailedAtEnd(l, pages, run[n], h, a, run[n + 1], t);
    m := ScanSawEmpty(l, pages, run, n, t, i);
  }

  lemma FailedAtEnd(l: Layout, pages: set<nat>, s: State, h: Thread, a: Act, u: State, t: Thread)
    requires Inv(l, pages, s) && Moves(l, s, h, a, u) && t in s.pcs && t in u.pcs && t in s.hands && t in u.hands
    requires !s.pcs[t].Idle? && u.pcs[t].Idle? && u.hands[t] <= s.hands[t]
    ensures s.pcs[t].Scan? && s.pcs[t].id >= l.ncpu
  {
    hide Once, OnList;
    assert h == t && a.Go?;
    if s.pcs[t].Own? && s.pcs[t].cid < |s.lists| && s.lists[s.pcs[t].cid] != [] { HeadOnList(s.lists, s.pcs[t].cid); }
    if s.pcs[t].Scan? && s.pcs[t].id < |s.lists| && s.lists[s.pcs[t].id] != [] { HeadOnList(s.lists, s.pcs[t].id); }
  }

  /** How many lists a kalloc still has to look at, at most. */
  function ToVisit(l: Layout, pc: Pc): int {
    match pc
    case Idle => 0
    case Own(_) => l.ncpu + 2
    case Scan(_, id) => l.ncpu + 1 - id
  }

  lemma {:induction false} ScanInRange(l: Layout, pages: set<nat>, run: seq<State>, n: nat, t: Thread)
    requires IsRun(l, pages, run) && n < |run| && t in run[n].pcs
    ensures run[n].pcs[t].Scan? ==> run[n].pcs[t].id <= l.ncpu
    decreases n
  {
    hide IsRun;
    if n == 0 {
      NobodyAtBoot(l, pages, run, t);
    } else {
      var h, a := MoveAt(l, pages, run, n - 1);
      if t in run[n - 1].pcs { ScanInRange(l, pages, run, n - 1, t); }
    }
  }

  /** Every step of a kalloc brings it nearer to its end, whatever the others do in between. */
  lemma KallocEnds(l: Layout, pages: set<nat>, run: seq<State>, n: nat, t: Thread, a: Act)
    requires IsRun(l, pages, run) && n + 1 < |run| && Moves(l, run[n], t, a, run[n + 1]) && !run[n].pcs[t].Idle?
    ensures t in run[n + 1].pcs && 0 <= ToVisit(l, run[n + 1].pcs[t]) < ToVisit(l, run[n].pcs[t])
  {
    ScanInRange(l, pages, run, n, t);
    hide IsRun;
  }

  /** What each critical section gives and takes: kalloc takes the head of its own list if there is one, of
      another list only after that; kfree puts the page at the head of the list named, and out of the
      hand. */
  lemma GivesAndTakes(l: Layout, pages: set<nat>, s: State, t: Thread, a: Act)
    requires Inv(l, pages, s) && Enabled(l, s, t, a)
    ensures var u := Step(l, s, t, a);
      && t in u.pcs && t in u.hands && |u.lists| == |s.lists|
      && (a.Alloc? ==> u.pcs[t] == Own(a.cid) && u.lists == s.lists && u.hands == s.hands)
      && (a.Free? ==> u.lists == s.lists[a.id := [a.pa] + s.lists[a.id]] && u.hands[t] == s.hands[t] - {a.pa})
      && (a.Pass? ==> a.t in u.hands && a.pa in u.hands[a.t] && (a.t != t ==> a.pa !in u.hands[t]) && u.lists == s.lists)
      && (a.Go? && s.pcs[t].Own? && s.pcs[t].cid < |s.lists| && s.lists[s.pcs[t].cid] != [] ==> Took(s, u, t, s.pcs[t].cid))
      && (a.Go? && s.pcs[t].Scan? && s.pcs[t].id < |s.lists| && s.pcs[t].id != s.pcs[t].sid && s.lists[s.pcs[t].id] != [] ==> Took(s, u, t, s.pcs[t].id))
      && (a.Go? && u.lists == s.lists ==> u.hands == s.hands)
  {
    hide Once, OnList;
  }

  ghost predicate Took(s: State, u: State, t: Thread, id: nat) {
    && id < |s.lists| && s.lists[id] != [] && t in s.hands && t in u.hands && t in u.pcs
    && u.lists == s.lists[id := s.lists[id][1..]] && u.hands[t] == s.hands[t] + {s.lists[id][0]} && u.pcs[t].Idle?
  }
}
