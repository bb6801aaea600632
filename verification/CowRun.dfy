/** Runs of processes that fork, load, store, grow, shrink and exit. The same machine runs with
    the copy-on-write fork or with the eager one; both are explained by one description in
    which every process has its own private bytes, so no run can tell them apart. */
module CowRun {
  import opened Sv39
  import opened KernelState
  import opened CowKernel
  import opened UserMemory
  import opened CowFork
  import opened CowAccess
  import opened AddressSpaces

  /** The trapframe and trampoline pages lie above this address. */
  const USERTOP: nat := MAXVA - 2 * PGSIZE

  // ---------------------------------------------------------------- private-memory description

  datatype UserProc = UserProc(sz: nat, mem: Mem)
  type Users = map<nat, UserProc>

  datatype Op =
    | Spawn(pid: nat, code: seq<byte>)
    | Fork(pid: nat, child: nat)
    | Load(pid: nat, va: nat, n: nat)
    | Store(pid: nat, va: nat, b: byte)
    | Write(pid: nat, va: nat, bs: seq<byte>)
    | Grow(pid: nat, sz: nat)
    | Shrink(pid: nat, sz: nat)
    | Exit(pid: nat)

  /** What the caller of an operation learns. Short(n): only n bytes were written before an
      inaccessible address. NoMemory(n): the allocator was empty after n bytes. */
  datatype Out = Done | Denied | Got(bs: seq<byte>) | Short(n: nat) | NoMemory(n: nat)

  ghost predicate Accessible(m: Mem, va: nat, n: nat) {
    forall x :: va <= x < va + n ==> UserPage(m, x)
  }

  /** The number of bytes that can be written at va before the first inaccessible address. */
  ghost function Reach(m: Mem, va: nat, n: nat): nat
    decreases n
  {
    if n == 0 || !UserPage(m, va) then 0 else 1 + Reach(m, va + 1, n - 1)
  }

  /** What userinit gives a process: one page that starts with code. */
  ghost function FirstImage(code: seq<byte>): UserProc {
    UserProc(PGSIZE, StoreBytes(WithZeros(map[], 0, 1), 0, code))
  }

  /** One operation when memory never runs out: fork copies, a store changes one process. Spawn is
      userinit; every run starts with one, since at boot there is no process. */
  ghost function Effect(u: Users, op: Op, limit: nat): (Out, Users) {
    if op.Spawn? then
      if op.pid in u || |u| >= limit || |op.code| >= PGSIZE then (Denied, u) else (Done, u[op.pid := FirstImage(op.code)])
    else if op.pid !in u then (Denied, u) else
    var p := u[op.pid];
    match op
    case Fork(_, child) =>
      if child in u || |u| >= limit then (Denied, u) else (Done, u[child := p])
    case Load(_, va, n) =>
      if Accessible(p.mem, va, n) then (Got(LoadBytes(p.mem, va, n)), u) else (Denied, u)
    case Store(pid, va, b) =>
      if UserPage(p.mem, va) then (Done, u[pid := p.(mem := StoreBytes(p.mem, va, [b]))]) else (Denied, u)
    case Write(pid, va, bs) =>
      var n := Reach(p.mem, va, |bs|);
      var q := p.(mem := StoreBytes(p.mem, va, if n <= |bs| then bs[..n] else bs));
      (if n == |bs| then Done else Short(n), u[pid := q])
    case Grow(pid, sz) =>
      if sz <= p.sz || sz > USERTOP then (Denied, u)
      else (Done, u[pid := UserProc(sz, WithZeros(p.mem, PageTotal(p.sz), PageTotal(sz)))])
    case Shrink(pid, sz) =>
      if sz >= p.sz then (Denied, u)
      else (Done, u[pid := UserProc(sz, p.mem - Span(PageTotal(sz), Less(PageTotal(p.sz), PageTotal(sz))))])
    case Exit(pid) => (Done, u - {pid})
  }

  function Less(a: nat, b: nat): nat { if a >= b then a - b else 0 }

  /** Only an operation that would otherwise succeed can find the allocator empty: a spawn, fork, store
      or growth then does nothing, and a write keeps its first n bytes. */
  ghost predicate RunsOut(u: Users, op: Op, limit: nat, n: nat, u': Users) {
    if op.Write? then
      && op.pid in u && n < Reach(u[op.pid].mem, op.va, |op.bs|) <= |op.bs|
      && u' == u[op.pid := u[op.pid].(mem := StoreBytes(u[op.pid].mem, op.va, op.bs[..n]))]
    else (op.Spawn? || op.Fork? || op.Store? || op.Grow?) && n == 0 && u' == u && Effect(u, op, limit).0 == Done
  }

  ghost predicate Explains(u: Users, op: Op, limit: nat, out: Out, u': Users) {
    match out
    case NoMemory(n) => RunsOut(u, op, limit, n, u')
    case _ => (out, u') == Effect(u, op, limit)
  }

  /** With so many free frames an operation cannot find the allocator empty: three for a new page (the
      page and two table pages), one for a table, one for a page to split. */
  ghost function FramesFor(u: Users, op: Op): nat {
    var pages := if op.pid in u then PageTotal(u[op.pid].sz) else 0;
    match op
    case Spawn(_, _) => 4
    case Fork(_, _) => 1 + 3 * pages
    case Store(_, _, _) => 1
    case Write(_, _, bs) => |bs|
    case Grow(_, sz) => 3 * Less(PageTotal(sz), pages)
    case _ => 0
  }

  /** How many answers report an empty allocator. */
  ghost function Shortages(outs: seq<Out>): nat {
    if outs == [] then 0 else Shortages(outs[..|outs| - 1]) + (if outs[|outs| - 1].NoMemory? then 1 else 0)
  }

  lemma {:induction false} NoShortage(outs: seq<Out>)
    requires Shortages(outs) == 0
    ensures forall i :: 0 <= i < |outs| ==> !outs[i].NoMemory?
  {
    if outs != [] {
      NoShortage(outs[..|outs| - 1]);
      forall i | 0 <= i < |outs| ensures !outs[i].NoMemory? {
        if i < |outs| - 1 { assert outs[i] == outs[..|outs| - 1][i]; }
      }
    }
  }

  ghost predicate ExplainsRun(u: Users, ops: seq<Op>, limit: nat, outs: seq<Out>, u': Users)
    decreases |ops|
  {
    |outs| == |ops| &&
    if |ops| == 0 then u' == u else
    exists v :: Explains(u, ops[0], limit, outs[0], v) && ExplainsRun(v, ops[1..], limit, outs[1..], u')
  }

  /** Runs without a memory shortage have one outcome only. */
  lemma {:induction false} RunsAgree(u: Users, ops: seq<Op>, limit: nat, o1: seq<Out>, u1: Users, o2: seq<Out>, u2: Users)
    requires ExplainsRun(u, ops, limit, o1, u1) && ExplainsRun(u, ops, limit, o2, u2)
    requires forall i :: 0 <= i < |ops| ==> !o1[i].NoMemory? && !o2[i].NoMemory?
    ensures o1 == o2 && u1 == u2
    decreases |ops|
  {
    hide Explains;
    if |ops| > 0 {
      var v1 :| Explains(u, ops[0], limit, o1[0], v1) && ExplainsRun(v1, ops[1..], limit, o1[1..], u1);
      var v2 :| Explains(u, ops[0], limit, o2[0], v2) && ExplainsRun(v2, ops[1..], limit, o2[1..], u2);
      StepsAgree(u, ops[0], limit, o1[0], v1, o2[0], v2);
      forall i | 0 <= i < |ops| - 1 ensures !o1[1..][i].NoMemory? && !o2[1..][i].NoMemory? {
        assert o1[1..][i] == o1[i + 1] && o2[1..][i] == o2[i + 1];
      }
      RunsAgree(v1, ops[1..], limit, o1[1..], u1, o2[1..], u2);
      assert o1 == [o1[0]] + o1[1..] && o2 == [o2[0]] + o2[1..];
    }
  }

  lemma StepsAgree(u: Users, op: Op, limit: nat, o1: Out, u1: Users, o2: Out, u2: Users)
    requires Explains(u, op, limit, o1, u1) && Explains(u, op, limit, o2, u2) && !o1.NoMemory? && !o2.NoMemory?
    ensures o1 == o2 && u1 == u2
  {
    hide Effect;
  }

  lemma {:induction false} RunsExtend(u: Users, ops: seq<Op>, limit: nat, outs: seq<Out>, v: Users, op: Op, out: Out, u': Users)
    requires ExplainsRun(u, ops, limit, outs, v) && Explains(v, op, limit, out, u')
    ensures ExplainsRun(u, ops + [op], limit, outs + [out], u')
    decreases |ops|
  {
    var ops', outs' := ops + [op], outs + [out];
    if |ops| == 0 {
      assert ops'[1..] == [] && outs'[1..] == [];
      assert ExplainsRun(u', ops'[1..], limit, outs'[1..], u');
      assert Explains(u, ops'[0], limit, outs'[0], u');
    } else {
      var w :| Explains(u, ops[0], limit, outs[0], w) && ExplainsRun(w, ops[1..], limit, outs[1..], v);
      RunsExtend(w, ops[1..], limit, outs[1..], v, op, out, u');
      assert ops'[1..] == ops[1..] + [op] && outs'[1..] == outs[1..] + [out];
      assert Explains(u, ops'[0], limit, outs'[0], w);
    }
  }

  // ---------------------------------------------------------------- the machine

  datatype Proc = Proc(root: int, sz: nat)

  /** Every process has its own table, which maps exactly its first sz bytes. */
  ghost predicate ProcsOk(procs: map<nat, Proc>, w: View, limit: nat) {
    && |procs| <= limit <= 255
    && w.Keys == RootsOf(procs)
    && (forall p :: p in procs ==> ProcOk(procs[p], w))
    && Distinct(procs)
  }

  ghost predicate Distinct(procs: map<nat, Proc>) {
    forall p, q :: p in procs && q in procs && p != q ==> procs[p].root != procs[q].root
  }

  ghost function RootsOf(procs: map<nat, Proc>): set<int> { set p | p in procs :: procs[p].root }

  ghost predicate ProcOk(p: Proc, w: View) {
    p.root in w && p.sz <= USERTOP && FirstPages(w[p.root], p.sz)
  }

  ghost predicate FirstPages(m: Mem, sz: nat) { forall v :: v in m <==> 0 <= v < PageTotal(sz) }

  function UsersOf(procs: map<nat, Proc>, w: View): Users {
    map p | p in procs :: UserProc(procs[p].sz, if procs[p].root in w then w[procs[p].root] else map[])
  }

  // ---------------------------------------------------------------- tables and users

  lemma TablesBounded(procs: map<nat, Proc>, w: View, limit: nat)
    requires ProcsOk(procs, w, limit)
    ensures |w| <= |procs|
  {
    CardImage(procs, procs.Keys, RootsOf(procs));
    assert |w| == |w.Keys| && |procs| == |procs.Keys|;
  }

  lemma {:induction false} CardImage(procs: map<nat, Proc>, ps: set<nat>, roots: set<int>)
    requires ps <= procs.Keys && roots == set p | p in ps :: procs[p].root
    ensures |roots| <= |ps|
    decreases ps
  {
    if ps == {} {
      assert roots == {};
    } else {
      var x :| x in ps;
      var rest := set p | p in ps - {x} :: procs[p].root;
      CardImage(procs, ps - {x}, rest);
      assert roots == rest + {procs[x].root};
      assert |rest + {procs[x].root}| <= |rest| + 1;
    }
  }

  /** Changing what one table shows changes the user behind it and no other. */
  lemma OneUser(procs: map<nat, Proc>, w: View, limit: nat, pid: nat, sz: nat, m: Mem)
    requires ProcsOk(procs, w, limit) && pid in procs && sz <= USERTOP && FirstPages(m, sz)
    ensures var procs', w' := procs[pid := Proc(procs[pid].root, sz)], w[procs[pid].root := m];
      ProcsOk(procs', w', limit) && UsersOf(procs', w') == UsersOf(procs, w)[pid := UserProc(sz, m)]
  {
    hide FirstPages, Distinct, RootsOf;
    OneUserView(procs, w, limit, pid, sz, m);
    hide UsersOf;
    var r := procs[pid].root;
    assert ProcOk(procs[pid], w);
    OtherRoots(procs, pid);
    SetProc(procs, pid, Proc(r, sz));
    assert w[r := m].Keys == w.Keys;
    assert procs[pid := Proc(r, sz)].Keys == procs.Keys;
    OneProc(procs, w, pid, sz, m, procs[pid := Proc(r, sz)]);
  }

  lemma OtherRoots(procs: map<nat, Proc>, pid: nat)
    requires Distinct(procs) && pid in procs
    ensures forall p :: p in procs && p != pid ==> procs[p].root != procs[pid].root
  {
  }

  lemma OneProc(procs: map<nat, Proc>, w: View, pid: nat, sz: nat, m: Mem, procs': map<nat, Proc>)
    requires pid in procs && Distinct(procs) && sz <= USERTOP && FirstPages(m, sz)
    requires forall p :: p in procs ==> ProcOk(procs[p], w)
    requires procs' == procs[pid := Proc(procs[pid].root, sz)]
    ensures forall p :: p in procs' ==> ProcOk(procs'[p], w[procs[pid].root := m])
  {
    hide FirstPages;
    forall p | p in procs' ensures ProcOk(procs'[p], w[procs[pid].root := m]) {
      assert ProcOk(procs[p], w);
    }
  }

  /** Entering a process whose table belongs to no other process. */
  lemma SetProc(procs: map<nat, Proc>, pid: nat, x: Proc)
    requires pid in procs ==> procs[pid].root == x.root
    requires Distinct(procs) && forall p :: p in procs && p != pid ==> procs[p].root != x.root
    ensures var procs' := procs[pid := x];
      && Distinct(procs') && procs'.Keys == procs.Keys + {pid}
      && (pid in procs ==> |procs'| == |procs|) && (pid !in procs ==> |procs'| == |procs| + 1)
      && (pid !in procs ==> RootsOf(procs') == RootsOf(procs) + {x.root})
      && (pid in procs ==> RootsOf(procs') == RootsOf(procs))
  {
    hide RootsOf;
    var procs' := procs[pid := x];
    assert procs'.Keys == procs.Keys + {pid} && |procs'| == |procs'.Keys| && |procs| == |procs.Keys|;
    assert pid in procs ==> procs'.Keys == procs.Keys;
    if pid in procs { RootsSet(procs, pid, x); } else { RootsNew(procs, pid, x); }
  }

  lemma RootsSet(procs: map<nat, Proc>, pid: nat, x: Proc)
    requires pid in procs && procs[pid].root == x.root
    ensures RootsOf(procs[pid := x]) == RootsOf(procs)
  {
    forall q ensures q in RootsOf(procs[pid := x]) <==> q in RootsOf(procs) {
      RootIn(procs, pid, x, q);
      RootIn(procs, pid, procs[pid], q);
      assert procs[pid := procs[pid]] == procs;
    }
  }

  lemma RootsNew(procs: map<nat, Proc>, pid: nat, x: Proc)
    requires pid !in procs
    ensures RootsOf(procs[pid := x]) == RootsOf(procs) + {x.root}
  {
    forall q ensures q in RootsOf(procs[pid := x]) <==> q in RootsOf(procs) || q == x.root {
      RootIn(procs, pid, x, q);
      assert q in RootsOf(procs) <==> InOthers(procs, pid, q);
    }
  }

  ghost predicate InOthers(procs: map<nat, Proc>, pid: nat, q: int) {
    exists p :: p in procs && p != pid && procs[p].root == q
  }

  lemma RootIn(procs: map<nat, Proc>, pid: nat, x: Proc, q: int)
    ensures q in RootsOf(procs[pid := x]) <==> q == x.root || InOthers(procs, pid, q)
  {
    var procs' := procs[pid := x];
    if q in RootsOf(procs') {
      var p :| p in procs' && procs'[p].root == q;
    }
    if q == x.root { assert procs'[pid].root == q; }
    if InOthers(procs, pid, q) {
      var p :| p in procs && p != pid && procs[p].root == q;
      assert procs'[p].root == q;
    }
  }

  lemma OneUserView(procs: map<nat, Proc>, w: View, limit: nat, pid: nat, sz: nat, m: Mem)
    requires ProcsOk(procs, w, limit) && pid in procs
    ensures UsersOf(procs[pid := Proc(procs[pid].root, sz)], w[procs[pid].root := m])
         == UsersOf(procs, w)[pid := UserProc(sz, m)]
  {
    hide ProcOk;
  }

  lemma SameUser(procs: map<nat, Proc>, w: View, limit: nat, pid: nat, m: Mem)
    requires ProcsOk(procs, w, limit) && pid in procs && FirstPages(m, procs[pid].sz)
    ensures ProcsOk(procs, w[procs[pid].root := m], limit)
    ensures UsersOf(procs, w[procs[pid].root := m]) == UsersOf(procs, w)[pid := UserProc(procs[pid].sz, m)]
  {
    assert ProcOk(procs[pid], w);
    OneUser(procs, w, limit, pid, procs[pid].sz, m);
    assert procs[pid := Proc(procs[pid].root, procs[pid].sz)] == procs;
  }

  lemma NewUser(procs: map<nat, Proc>, w: View, limit: nat, pid: nat, root: int, sz: nat, m: Mem)
    requires ProcsOk(procs, w, limit) && pid !in procs && |procs| < limit && root !in w
    requires sz <= USERTOP && FirstPages(m, sz)
    ensures var procs', w' := procs[pid := Proc(root, sz)], w[root := m];
      ProcsOk(procs', w', limit) && UsersOf(procs', w') == UsersOf(procs, w)[pid := UserProc(sz, m)]
  {
    hide FirstPages, Distinct, RootsOf;
    forall p | p in procs ensures procs[p].root in w { assert ProcOk(procs[p], w); }
    NewUserView(procs, w, pid, root, sz, m);
    hide UsersOf;
    SetProc(procs, pid, Proc(root, sz));
    var procs', w' := procs[pid := Proc(root, sz)], w[root := m];
    assert w'.Keys == w.Keys + {root};
    NewProcOk(procs, w, pid, root, sz, m, procs');
  }

  lemma NewProcOk(procs: map<nat, Proc>, w: View, pid: nat, root: int, sz: nat, m: Mem, procs': map<nat, Proc>)
    requires root !in w && sz <= USERTOP && FirstPages(m, sz) && forall p :: p in procs ==> ProcOk(procs[p], w)
    requires procs' == procs[pid := Proc(root, sz)]
    ensures forall p :: p in procs' ==> ProcOk(procs'[p], w[root := m])
  {
    hide FirstPages;
    forall p | p in procs' ensures ProcOk(procs'[p], w[root := m]) {
      if p != pid { assert ProcOk(procs[p], w); }
    }
  }

  lemma NewUserView(procs: map<nat, Proc>, w: View, pid: nat, root: int, sz: nat, m: Mem)
    requires root !in w && forall p :: p in procs ==> procs[p].root in w
    ensures UsersOf(procs[pid := Proc(root, sz)], w[root := m]) == UsersOf(procs, w)[pid := UserProc(sz, m)]
  {
  }

  lemma LostUser(procs: map<nat, Proc>, w: View, limit: nat, pid: nat)
    requires ProcsOk(procs, w, limit) && pid in procs
    ensures var procs', w' := procs - {pid}, w - {procs[pid].root};
      ProcsOk(procs', w', limit) && UsersOf(procs', w') == UsersOf(procs, w) - {pid}
  {
    hide FirstPages, RootsOf, UsersOf;
    var procs', w' := procs - {pid}, w - {procs[pid].root};
    assert procs'.Keys == procs.Keys - {pid} && |procs'| == |procs'.Keys| && |procs| == |procs.Keys|;
    assert w'.Keys == w.Keys - {procs[pid].root};
    RootsLost(procs, pid);
    LostUserView(procs, w, pid);
    forall p | p in procs' ensures ProcOk(procs'[p], w') { assert ProcOk(procs[p], w); }
  }

  lemma RootsLost(procs: map<nat, Proc>, pid: nat)
    requires Distinct(procs) && pid in procs
    ensures RootsOf(procs - {pid}) == RootsOf(procs) - {procs[pid].root}
  {
    forall q | q in RootsOf(procs) && q != procs[pid].root ensures q in RootsOf(procs - {pid}) {
      var p :| p in procs && procs[p].root == q;
      assert (procs - {pid})[p].root == q;
    }
  }

  lemma LostUserView(procs: map<nat, Proc>, w: View, pid: nat)
    requires Distinct(procs) && pid in procs
    ensures UsersOf(procs - {pid}, w - {procs[pid].root}) == UsersOf(procs, w) - {pid}
  {
  }

  lemma UserAt(procs: map<nat, Proc>, s: State, limit: nat, pid: nat)
    requires ProcsOk(procs, ViewOf(s), limit)
    ensures UsersOf(procs, ViewOf(s)).Keys == procs.Keys && |UsersOf(procs, ViewOf(s))| == |procs|
    ensures pid in procs ==>
      && var r := procs[pid].root;
      && r in s.spaces && r in ViewOf(s) && procs[pid].sz <= USERTOP && FirstPages(ViewOf(s)[r], procs[pid].sz)
      && UsersOf(procs, ViewOf(s))[pid] == UserProc(procs[pid].sz, ViewOf(s)[r])
      && forall v :: HasLeaf(s.spaces, r, v) <==> 0 <= v < PageTotal(procs[pid].sz)
  {
    var u := UsersOf(procs, ViewOf(s));
    assert |u| == |u.Keys| && |procs| == |procs.Keys|;
    if pid in procs {
      var r := procs[pid].root;
      assert ProcOk(procs[pid], ViewOf(s));
      assert r in s.spaces;
      ViewKeys(s, r);
      forall v ensures HasLeaf(s.spaces, r, v) <==> 0 <= v < PageTotal(procs[pid].sz) {
        assert v in ViewOf(s)[r] <==> 0 <= v < PageTotal(procs[pid].sz);
      }
    }
  }

  lemma StoreKeepsPages(m: Mem, va: int, bs: seq<byte>, sz: nat)
    requires FirstPages(m, sz)
    ensures FirstPages(StoreBytes(m, va, bs), sz)
  {
  }

  lemma {:induction false} ReachIs(m: Mem, va: nat, len: nat, n: nat)
    requires n <= len && (forall x :: va <= x < va + n ==> UserPage(m, x))
    requires n < len ==> !UserPage(m, va + n)
    ensures Reach(m, va, len) == n
    decreases n
  {
    if n > 0 {
      assert UserPage(m, va);
      ReachIs(m, va + 1, len - 1, n - 1);
    }
  }

  lemma {:induction false} ReachMore(m: Mem, va: nat, len: nat, n: nat)
    requires n < len && forall x :: va <= x <= va + n ==> UserPage(m, x)
    ensures n < Reach(m, va, len) <= len
    decreases len
  {
    assert UserPage(m, va);
    ReachTop(m, va + 1, len - 1);
    if n > 0 { ReachMore(m, va + 1, len - 1, n - 1); }
  }

  lemma {:induction false} ReachTop(m: Mem, va: nat, len: nat)
    ensures Reach(m, va, len) <= len
    decreases len
  {
    if len > 0 && UserPage(m, va) { ReachTop(m, va + 1, len - 1); }
  }

  lemma WholeRestrict(m: Mem, n: nat)
    requires forall v :: v in m <==> 0 <= v < n
    ensures Restrict(m, n) == m
  {
  }

  // ---------------------------------------------------------------- the machine

  class Machine {
    const kernel: Kernel
    const eager: bool
    const limit: nat
    var procs: map<nat, Proc>

    ghost predicate Valid()
      reads this, kernel
    {
      && Inv(kernel.S(), {}) && Quiet(kernel.S()) && ProcsOk(procs, ViewOf(kernel.S()), limit)
      && Tidy(kernel.S()) && (eager ==> Plain(kernel.spaces))
    }

    ghost function Users(): Users
      reads this, kernel
    {
      UsersOf(procs, ViewOf(kernel.S()))
    }

    constructor (k: Kernel, eager: bool, limit: nat)
      requires Inv(k.S(), {}) && Tidy(k.S()) && k.spaces == map[] && limit <= 255
      ensures Valid() && kernel == k && this.eager == eager && this.limit == limit && procs == map[]
    {
      kernel, this.eager, this.limit := k, eager, limit;
      procs := map[];
      new;
      assert Quiet(kernel.S());
      assert ViewOf(kernel.S()) == map[];
    }

    method Step(op: Op) returns (out: Out)
      requires Valid()
      modifies this, kernel
      ensures kernel.fails == old(kernel.fails) + (if out.NoMemory? then 1 else 0) && kernel.frames.Keys == old(kernel.frames).Keys
      ensures out.NoMemory? ==> |old(kernel.freelist)| < FramesFor(old(Users()), op)
      ensures out.NoMemory? && (op.Store? || op.Write?) ==> !eager && SplitsAt(old(kernel.spaces), old(procs), op.pid, op.va + out.n)
      ensures op.Store? && SplitsAt(old(kernel.spaces), old(procs), op.pid, op.va) && old(kernel.freelist) == [] ==> out == NoMemory(0)
      ensures Valid() && Explains(old(Users()), op, limit, out, Users())
    {
      hide Inv, Quiet, ViewOf, ProcsOk, UsersOf, Tidy, Plain, Steady, StaysPlain, IsCow, StoreBytes, LoadBytes, UserPage, PageTotal, Span, WithZeros, FirstPages, Reach;
      UserAt(procs, kernel.S(), limit, op.pid);
      if eager { NeverSplits(kernel.S(), procs, op.pid); }
      if op.Spawn? {
        out := DoSpawn(op.pid, op.code);
        return;
      }
      if op.pid !in procs {
        return Denied;
      }
      match op
      case Fork(pid, child) => out := DoFork(pid, child);
      case Load(pid, va, n) => out := DoLoad(pid, va, n);
      case Store(pid, va, b) => out := DoStore(pid, va, b);
      case Write(pid, va, bs) => out := DoWrite(pid, va, bs);
      case Grow(pid, sz) => out := DoGrow(pid, sz);
      case Shrink(pid, sz) => out := DoShrink(pid, sz);
      case Exit(pid) => out := DoExit(pid);
    }

    /** userinit: a table with one page, or no change. */
    method DoSpawn(pid: nat, code: seq<byte>) returns (out: Out)
      requires Valid()
      modifies this, kernel
      ensures kernel.fails == old(kernel.fails) + (if out.NoMemory? then 1 else 0) && kernel.frames.Keys == old(kernel.frames).Keys
      ensures out.NoMemory? ==> |old(kernel.freelist)| < FramesFor(old(Users()), Spawn(pid, code))
      ensures Valid() && Explains(old(Users()), Spawn(pid, code), limit, out, Users())
    {
      hide Inv, Quiet, ViewOf, ProcsOk, UsersOf, Tidy, Plain, Steady, StaysPlain, IsCow, UserPage, PageTotal, FirstPages, StoreBytes, WithZeros;
      ghost var s, w := kernel.S(), ViewOf(kernel.S());
      UserAt(procs, s, limit, pid);
      if pid in procs || |procs| >= limit || |code| >= PGSIZE {
        return Denied;
      }
      var root := Uvmcreate(kernel);
      ghost var s1 := kernel.S();
      StillTidy(s, s1);
      if root == 0 {
        return NoMemory(0);
      }
      RootNew(s, kernel.S(), root);
      var ok := Uvminit(kernel, root, code);
      ghost var s2 := kernel.S();
      StillTidy(s1, s2);
      if !ok {
        EmptyTable(kernel.S(), root);
        Uvmfree(kernel, root, 0);
        StillTidy(s2, kernel.S());
        assert ViewOf(kernel.S()) == w by { AddRemove(w, root); }
        return NoMemory(0);
      }
      ImagePages(code);
      SpawnView(w, root, code);
      NewUser(procs, w, limit, pid, root, PGSIZE, FirstImage(code).mem);
      procs := procs[pid := Proc(root, PGSIZE)];
      return Done;
    }

    method DoLoad(pid: nat, va: nat, n: nat) returns (out: Out)
      requires Valid() && pid in procs
      modifies this, kernel
      ensures kernel.fails == old(kernel.fails) + (if out.NoMemory? then 1 else 0) && kernel.frames.Keys == old(kernel.frames).Keys
      ensures Valid() && Explains(old(Users()), Load(pid, va, n), limit, out, Users())
    {
      hide Inv, Quiet, ViewOf, ProcsOk, UsersOf, Tidy, Plain, Steady, StaysPlain, IsCow, LoadBytes, UserPage, PageTotal, FirstPages;
      UserAt(procs, kernel.S(), limit, pid);
      var ok, bs := Copyin(kernel, procs[pid].root, va, n);
      return if ok then Got(bs) else Denied;
    }

    method DoStore(pid: nat, va: nat, b: byte) returns (out: Out)
      requires Valid() && pid in procs
      modifies this, kernel
      ensures kernel.fails == old(kernel.fails) + (if out.NoMemory? then 1 else 0) && kernel.frames.Keys == old(kernel.frames).Keys
      ensures out.NoMemory? ==> |old(kernel.freelist)| < FramesFor(old(Users()), Store(pid, va, b))
      ensures out.NoMemory? <==> SplitsAt(old(kernel.spaces), old(procs), pid, va) && old(kernel.freelist) == []
      ensures out.NoMemory? ==> out == NoMemory(0)
      ensures Valid() && Explains(old(Users()), Store(pid, va, b), limit, out, Users())
    {
      hide Inv, Quiet, ViewOf, ProcsOk, UsersOf, Tidy, Plain, Steady, StaysPlain, IsCow, StoreBytes, UserPage, PageTotal, FirstPages;
      ghost var s := kernel.S();
      UserAt(procs, s, limit, pid);
      SplitsHere(s, procs, limit, pid, va);
      var ok, oom := UserStore(kernel, procs[pid].root, va, b);
      StillTidy(s, kernel.S());
      if ok {
        StoreKeepsPages(ViewOf(s)[procs[pid].root], va, [b], procs[pid].sz);
        SameUser(procs, ViewOf(s), limit, pid, StoreBytes(ViewOf(s)[procs[pid].root], va, [b]));
        return Done;
      }
      UserAt(procs, kernel.S(), limit, pid);
      var pa := Walkaddr(kernel, procs[pid].root, va);
      return if pa != 0 then NoMemory(0) else Denied;
    }

    method DoWrite(pid: nat, va: nat, bs: seq<byte>) returns (out: Out)
      requires Valid() && pid in procs
      modifies this, kernel
      ensures kernel.fails == old(kernel.fails) + (if out.NoMemory? then 1 else 0) && kernel.frames.Keys == old(kernel.frames).Keys
      ensures out.NoMemory? ==> |old(kernel.freelist)| < FramesFor(old(Users()), Write(pid, va, bs))
      ensures out.NoMemory? ==> SplitsAt(old(kernel.spaces), old(procs), pid, va + out.n)
      ensures out.NoMemory? ==> |old(kernel.freelist)| <= CowPages(old(kernel.spaces), old(procs)[pid].root, va / PGSIZE, (va + out.n) / PGSIZE)
      ensures Valid() && Explains(old(Users()), Write(pid, va, bs), limit, out, Users())
    {
      hide Inv, Quiet, ViewOf, ProcsOk, UsersOf, Tidy, Plain, Steady, StaysPlain, IsCow, StoreBytes, UserPage, PageTotal, FirstPages, Reach;
      ghost var s, r := kernel.S(), procs[pid].root;
      UserAt(procs, s, limit, pid);
      ghost var m := ViewOf(s)[r];
      var ok, n, oom := Copyout(kernel, procs[pid].root, va, bs);
      StillTidy(s, kernel.S());
      SplitsHere(s, procs, limit, pid, va + n);
      StoreKeepsPages(m, va, bs[..n], procs[pid].sz);
      SameUser(procs, ViewOf(s), limit, pid, StoreBytes(m, va, bs[..n]));
      if ok {
        ReachIs(m, va, |bs|, n);
        assert bs[..n] == bs;
        return Done;
      }
      UserAt(procs, kernel.S(), limit, pid);
      StoreAccess(m, va, bs[..n], va + n);
      var pa := Walkaddr(kernel, procs[pid].root, va + n);
      if pa != 0 {
        ReachMore(m, va, |bs|, n);
        return NoMemory(n);
      }
      ReachIs(m, va, |bs|, n);
      return Short(n);
    }

    method DoFork(pid: nat, child: nat) returns (out: Out)
      requires Valid() && pid in procs
      modifies this, kernel
      ensures kernel.fails == old(kernel.fails) + (if out.NoMemory? then 1 else 0) && kernel.frames.Keys == old(kernel.frames).Keys
      ensures out.NoMemory? ==> |old(kernel.freelist)| < FramesFor(old(Users()), Fork(pid, child))
      ensures Valid() && Explains(old(Users()), Fork(pid, child), limit, out, Users())
    {
      hide Inv, Quiet, ViewOf, ProcsOk, UsersOf, Tidy, Plain, Steady, StaysPlain, IsCow, UserPage, PageTotal, FirstPages, Restrict;
      ghost var s, w := kernel.S(), ViewOf(kernel.S());
      var p := procs[pid];
      UserAt(procs, s, limit, pid);
      if child in procs || |procs| >= limit {
        return Denied;
      }
      ViewKeys(s, p.root);
      var root := Uvmcreate(kernel);
      ghost var s1 := kernel.S();
      StillTidy(s, s1);
      if root == 0 {
        return NoMemory(0);
      }
      ForkReady(procs, s, s1, limit, p.root, root, p.sz);
      var ok;
      if eager {
        ok := EagerUvmcopy(kernel, p.root, root, p.sz);
        StillTidy(s1, kernel.S());
      } else {
        ok := Uvmcopy(kernel, p.root, root, p.sz);
        JustTidy(s1, kernel.S());
      }
      if !ok {
        ghost var s2 := kernel.S();
        EmptyTable(kernel.S(), root);
        Uvmfree(kernel, root, 0);
        StillTidy(s2, kernel.S());
        assert ViewOf(kernel.S()) == w by { AddRemove(w, root); }
        return NoMemory(0);
      }
      ForkedView(w, p.root, root, p.sz);
      NewUser(procs, w, limit, child, root, p.sz, w[p.root]);
      procs := procs[child := Proc(root, p.sz)];
      return Done;
    }

    method DoGrow(pid: nat, sz: nat) returns (out: Out)
      requires Valid() && pid in procs
      modifies this, kernel
      ensures kernel.fails == old(kernel.fails) + (if out.NoMemory? then 1 else 0) && kernel.frames.Keys == old(kernel.frames).Keys
      ensures out.NoMemory? ==> |old(kernel.freelist)| < FramesFor(old(Users()), Grow(pid, sz))
      ensures Valid() && Explains(old(Users()), Grow(pid, sz), limit, out, Users())
    {
      hide Inv, Quiet, ViewOf, ProcsOk, UsersOf, Tidy, Plain, Steady, StaysPlain, IsCow, UserPage, PageTotal, FirstPages, WithZeros;
      ghost var s := kernel.S();
      var p := procs[pid];
      UserAt(procs, s, limit, pid);
      if sz <= p.sz || sz > USERTOP {
        return Denied;
      }
      var size, ok := Uvmalloc(kernel, p.root, p.sz, sz);
      StillTidy(s, kernel.S());
      if size == 0 {
        return NoMemory(0);
      }
      GrownPages(ViewOf(s)[p.root], p.sz, sz);
      OneUser(procs, ViewOf(s), limit, pid, sz, WithZeros(ViewOf(s)[p.root], PageTotal(p.sz), PageTotal(sz)));
      procs := procs[pid := Proc(p.root, size)];
      return Done;
    }

    method DoShrink(pid: nat, sz: nat) returns (out: Out)
      requires Valid() && pid in procs
      modifies this, kernel
      ensures kernel.fails == old(kernel.fails) + (if out.NoMemory? then 1 else 0) && kernel.frames.Keys == old(kernel.frames).Keys
      ensures Valid() && Explains(old(Users()), Shrink(pid, sz), limit, out, Users())
    {
      hide Inv, Quiet, ViewOf, ProcsOk, UsersOf, Tidy, Plain, Steady, StaysPlain, IsCow, UserPage, PageTotal, FirstPages, Span;
      ghost var s := kernel.S();
      var p := procs[pid];
      UserAt(procs, s, limit, pid);
      if sz >= p.sz {
        return Denied;
      }
      TotalMonotone(sz, p.sz);
      var size := Uvmdealloc(kernel, p.root, p.sz, sz);
      StillTidy(s, kernel.S());
      ShrunkPages(ViewOf(s)[p.root], p.sz, sz);
      OneUser(procs, ViewOf(s), limit, pid, sz, ViewOf(s)[p.root] - Span(PageTotal(sz), PageTotal(p.sz) - PageTotal(sz)));
      procs := procs[pid := Proc(p.root, size)];
      return Done;
    }

    method DoExit(pid: nat) returns (out: Out)
      requires Valid() && pid in procs
      modifies this, kernel
      ensures kernel.fails == old(kernel.fails) + (if out.NoMemory? then 1 else 0) && kernel.frames.Keys == old(kernel.frames).Keys
      ensures Valid() && Explains(old(Users()), Exit(pid), limit, out, Users())
    {
      hide Inv, Quiet, ViewOf, ProcsOk, UsersOf, Tidy, Plain, Steady, StaysPlain, IsCow, UserPage, PageTotal, FirstPages;
      ghost var s := kernel.S();
      var p := procs[pid];
      UserAt(procs, s, limit, pid);
      Uvmfree(kernel, p.root, p.sz);
      StillTidy(s, kernel.S());
      LostUser(procs, ViewOf(s), limit, pid);
      procs := procs - {pid};
      return Done;
    }

    /** Any sequence of operations, with either fork, is explained by private memories. */
    method Run(ops: seq<Op>) returns (outs: seq<Out>)
      requires Valid()
      modifies this, kernel
      ensures kernel.fails == old(kernel.fails) + Shortages(outs) && kernel.frames.Keys == old(kernel.frames).Keys
      ensures Valid() && ExplainsRun(old(Users()), ops, limit, outs, Users())
      ensures eager ==> forall i :: 0 <= i < |ops| && i < |outs| && (ops[i].Store? || ops[i].Write?) ==> !outs[i].NoMemory?
      ensures procs == map[] ==> (forall pa :: pa in kernel.frames ==> pa in kernel.freelist) && |kernel.freelist| == |kernel.frames|
    {
      hide Inv, Quiet, ViewOf, ProcsOk, UsersOf, Explains, Tidy, Plain, Steady, StaysPlain, IsCow;
      ghost var u := Users();
      outs := [];
      var i := 0;
      assert ops[..0] == [];
      while i < |ops|
        invariant 0 <= i <= |ops| && Valid() && ExplainsRun(u, ops[..i], limit, outs, Users())
        invariant kernel.fails == old(kernel.fails) + Shortages(outs) && kernel.frames.Keys == old(kernel.frames).Keys && |outs| == i
        invariant eager ==> forall j :: 0 <= j < i && (ops[j].Store? || ops[j].Write?) ==> !outs[j].NoMemory?
      {
        ghost var v := Users();
        var out := Step(ops[i]);
        RunsExtend(u, ops[..i], limit, outs, v, ops[i], out, Users());
        assert ops[..i] + [ops[i]] == ops[..i + 1];
        assert (outs + [out])[..|outs|] == outs;
        outs := outs + [out];
        i := i + 1;
      }
      assert ops[..i] == ops;
      if procs == map[] { AllReturned(procs, kernel.S(), limit); }
    }
  }

  lemma StillTidy(s: State, t: State)
    requires Steady(s, t) && StaysPlain(s.spaces, t.spaces)
    ensures t.frames.Keys == s.frames.Keys && (Tidy(s) ==> Tidy(t)) && (Plain(s.spaces) ==> Plain(t.spaces))
  {
    hide Tidy, Plain;
  }

  lemma JustTidy(s: State, t: State)
    requires Steady(s, t)
    ensures t.frames.Keys == s.frames.Keys && (Tidy(s) ==> Tidy(t))
  {
    hide Tidy;
  }

  /** A store at va must split the page first: the user may access it and it is copy-on-write. */
  ghost predicate SplitsAt(ss: Spaces, procs: map<nat, Proc>, pid: nat, va: nat) {
    pid in procs && va < MAXVA && IsCow(ss, procs[pid].root, va / PGSIZE) && LeafAt(ss, procs[pid].root, va / PGSIZE).flags.u
  }

  lemma SplitsHere(s: State, procs: map<nat, Proc>, limit: nat, pid: nat, va: nat)
    requires pid in procs && procs[pid].root in s.spaces
    ensures procs[pid].root in ViewOf(s)
    ensures SplitsAt(s.spaces, procs, pid, va) <==> UserPage(ViewOf(s)[procs[pid].root], va) && IsCow(s.spaces, procs[pid].root, va / PGSIZE)
    ensures Plain(s.spaces) && Inv(s, {}) ==> !SplitsAt(s.spaces, procs, pid, va)
  {
    ViewKeys(s, procs[pid].root);
    if IsCow(s.spaces, procs[pid].root, va / PGSIZE) && Inv(s, {}) { WasLeaf(s, procs[pid].root, va / PGSIZE); }
  }

  lemma NeverSplits(s: State, procs: map<nat, Proc>, pid: nat)
    requires Inv(s, {}) && Plain(s.spaces)
    ensures forall va :: !SplitsAt(s.spaces, procs, pid, va)
  {
    hide Inv;
    forall va: nat ensures !SplitsAt(s.spaces, procs, pid, va) {
      if SplitsAt(s.spaces, procs, pid, va) { WasLeaf(s, procs[pid].root, va / PGSIZE); }
    }
  }

  /** Every frame is free, a page of some table, or named by an entry. */
  lemma NothingLeaks(s: State, pa: int)
    requires Inv(s, {}) && Tidy(s) && pa in s.frames
    ensures pa in s.free || (s.role[pa].Table? && s.role[pa].root in s.spaces) || exists r, v :: HasLeaf(s.spaces, r, v) && LeafAt(s.spaces, r, v).pa == pa
  {
    hide NodesOk, LeavesOk, SharingOk;
    if s.role[pa].Data? {
      assert Refs(s.spaces, pa) != {};
      var x :| x in Refs(s.spaces, pa);
      assert HasLeaf(s.spaces, x.0, x.1);
    } else if s.role[pa].Table? {
      assert HasDir(s.spaces, s.role[pa].root, s.role[pa].node);
    }
  }

  /** When the last process is gone the allocator has every frame again, each once. */
  lemma AllReturned(procs: map<nat, Proc>, s: State, limit: nat)
    requires Inv(s, {}) && Tidy(s) && ProcsOk(procs, ViewOf(s), limit) && procs == map[]
    ensures (forall pa :: pa in s.frames ==> pa in s.free) && |s.free| == |s.frames|
  {
    hide NodesOk, LeavesOk, SharingOk;
    assert ViewOf(s).Keys == s.spaces.Keys;
    assert RootsOf(procs) == {};
    assert s.spaces.Keys == {};
    forall pa | pa in s.frames ensures pa in s.free { NothingLeaks(s, pa); }
    var all := set x | x in s.free;
    assert all == s.frames.Keys by {
      forall x ensures x in all <==> x in s.frames.Keys { assert x in s.free ==> x in s.frames; }
    }
    NoDupSize(s.free);
    assert |s.frames| == |s.frames.Keys|;
  }

  lemma {:induction false} NoDupSize(q: seq<int>)
    requires NoDup(q)
    ensures |set x | x in q| == |q|
  {
    if q != [] {
      NoDupSize(q[1..]);
      assert (set x | x in q) == (set x | x in q[1..]) + {q[0]};
    }
  }

  /** Copy-on-write refines the eager fork: from the same user memories, the two machines give the
      same answers to every operation and end with the same user memories, whenever every kalloc of
      either kernel succeeded. */
  method RunBoth(cow: Machine, eager: Machine, ops: seq<Op>) returns (outs: seq<Out>, outs': seq<Out>)
    requires cow.Valid() && eager.Valid() && cow.Users() == eager.Users() && cow.limit == eager.limit
    requires {cow, cow.kernel} !! {eager, eager.kernel}
    modifies cow, cow.kernel, eager, eager.kernel
    ensures |outs| == |outs'| == |ops|
    ensures cow.kernel.fails == old(cow.kernel.fails) + Shortages(outs)
    ensures eager.kernel.fails == old(eager.kernel.fails) + Shortages(outs')
    ensures cow.kernel.fails == old(cow.kernel.fails) && eager.kernel.fails == old(eager.kernel.fails) ==>
      outs == outs' && cow.Users() == eager.Users() && forall i :: 0 <= i < |ops| ==> !outs[i].NoMemory?
  {
    hide Inv, Quiet, ViewOf, ProcsOk, UsersOf, ExplainsRun, Tidy, Plain;
    ghost var u := cow.Users();
    outs := cow.Run(ops);
    RunLength(u, ops, cow.limit, outs, cow.Users());
    outs' := eager.Run(ops);
    RunLength(u, ops, cow.limit, outs', eager.Users());
    if Shortages(outs) == 0 && Shortages(outs') == 0 {
      NoShortage(outs);
      NoShortage(outs');
      RunsAgree(u, ops, cow.limit, outs, cow.Users(), outs', eager.Users());
    }
  }

  lemma RunLength(u: Users, ops: seq<Op>, limit: nat, outs: seq<Out>, u': Users)
    requires ExplainsRun(u, ops, limit, outs, u')
    ensures |outs| == |ops|
  {
  }

  lemma ForkReady(procs: map<nat, Proc>, s: State, t: State, limit: nat, orig: int, root: int, sz: nat)
    requires ProcsOk(procs, ViewOf(s), limit) && |procs| < limit && orig in s.spaces && sz <= USERTOP
    requires root !in s.spaces && t.spaces == s.spaces[root := Space(map[Root := root], map[])]
    requires forall v :: HasLeaf(s.spaces, orig, v) <==> 0 <= v < PageTotal(sz)
    ensures |t.spaces| <= 255 && orig in t.spaces && root in t.spaces && t.spaces[root].leaves == map[]
    ensures forall v :: 0 <= v < PageTotal(sz) ==> HasLeaf(t.spaces, orig, v)
    ensures ViewOf(s).Keys == s.spaces.Keys
  {
    TablesBounded(procs, ViewOf(s), limit);
    assert ViewOf(s).Keys == s.spaces.Keys;
    assert |ViewOf(s)| == |ViewOf(s).Keys| && |s.spaces| == |s.spaces.Keys|;
    assert t.spaces.Keys == s.spaces.Keys + {root};
    assert |t.spaces| == |t.spaces.Keys|;
    forall v | 0 <= v < PageTotal(sz) ensures HasLeaf(t.spaces, orig, v) { assert HasLeaf(s.spaces, orig, v); }
  }

  lemma RootNew(s: State, t: State, root: int)
    requires root !in s.spaces && t.spaces == s.spaces[root := Space(map[Root := root], map[])]
    ensures !HasLeaf(t.spaces, root, 0) && root in t.spaces && ViewOf(s).Keys == s.spaces.Keys
  {
  }

  lemma ImagePages(code: seq<byte>)
    ensures FirstPages(FirstImage(code).mem, PGSIZE) && PGSIZE <= USERTOP
  {
    GrownPages(map[], 0, PGSIZE);
    assert PageTotal(0) == 0 && PageTotal(PGSIZE) == 1;
    StoreKeepsPages(WithZeros(map[], 0, 1), 0, code, PGSIZE);
  }

  lemma SpawnView(w: View, root: int, code: seq<byte>)
    requires root !in w
    ensures var x := w[root := map[]]; x[root := StoreBytes(x[root][0 := ZeroPage()], 0, code)] == w[root := FirstImage(code).mem]
  {
    var none: Mem := map[];
    assert none[0 := ZeroPage()] == WithZeros(map[], 0, 1) by { assert 0 in Span(0, 1); }
  }

  lemma EmptyTable(s: State, r: int)
    requires r in s.spaces && r in ViewOf(s) && ViewOf(s)[r] == map[]
    ensures forall v :: HasLeaf(s.spaces, r, v) <==> 0 <= v < PageTotal(0)
  {
    ViewKeys(s, r);
    forall v ensures !HasLeaf(s.spaces, r, v) { assert v !in ViewOf(s)[r]; }
  }

  lemma AddRemove(w: View, r: int)
    requires r !in w
    ensures w[r := map[]] - {r} == w
  {
  }

  lemma ForkedView(w: View, orig: int, root: int, sz: nat)
    requires orig in w && root !in w && FirstPages(w[orig], sz)
    ensures var x := w[root := map[]]; x[root := Restrict(x[orig], PageTotal(sz))] == w[root := w[orig]]
  {
    WholeRestrict(w[orig], PageTotal(sz));
  }

  lemma TotalMonotone(a: nat, b: nat)
    requires a <= b
    ensures PageTotal(a) <= PageTotal(b)
  {
  }

  lemma GrownPages(m: Mem, sz: nat, sz': nat)
    requires FirstPages(m, sz) && sz <= sz'
    ensures FirstPages(WithZeros(m, PageTotal(sz), PageTotal(sz')), sz')
  {
    TotalMonotone(sz, sz');
    var lo, hi := PageTotal(sz), PageTotal(sz');
    forall v ensures v in WithZeros(m, lo, hi) <==> 0 <= v < hi {
      assert v in Span(lo, hi - lo) <==> lo <= v < hi;
    }
  }

  lemma ShrunkPages(m: Mem, sz: nat, sz': nat)
    requires FirstPages(m, sz) && sz' <= sz && PageTotal(sz') <= PageTotal(sz)
    ensures FirstPages(m - Span(PageTotal(sz'), PageTotal(sz) - PageTotal(sz')), sz')
  {
  }
}
